# TurboPack and DN07, verified

This project models a library for secure multi-party computation and proves properties of the model
in Dafny. `dafny verify dfyconfig.toml` checks it all.

A circuit of input, addition, multiplication and output gates is evaluated by n parties on secret
shares. Two protocols do this, and both are proved against the cleartext evaluator of the same
circuits:

- TurboPack works on packed Shamir sharings: random sharings and packed triples are made before the
  circuit is known, turned into per-batch preprocessing once it is, and then P1 learns, layer by
  layer, the masked value mu = value - lambda of every wire.
- DN07 uses double sharings, with P1's shares forced to zero at the last t parties, so that those
  parties finish before any input exists.

Both rest on an algebra library: fields, Lagrange interpolation, polynomials, linear systems, Shamir
sharing with error correction, machine-word field arithmetic, rings modulo 2^K and an in-memory
channel.

How the model is set up:

- `Field.P` is a prime constant without a value, so every theorem holds for every prime field. That
  2^61 - 1 and 2^127 - 1 are prime is not used; `MachineField` proves its results for these moduli
  directly.
- Random choices of dealers are arguments, and every theorem is for all of them.
- "s is a degree-d sharing of v" (`Packed.IsSharing`) means that one polynomial with at most d + 1
  coefficients has the shares at 1, ..., n and the secrets at 0, -1, ....
- A thrown exception is a `None`, a `Failure` or a result `false`; theorems say exactly when it
  happens. A receive on an empty queue waits, so receiving methods require the message to be there;
  that it always arrives is `Interleaving.EveryInterleaving`.
- Each protocol appears twice. Functions over the shares of all parties (`FIPrep`, `Triples`,
  `Batch`, `Mapping`, `TurboPack`, `Online`, `DN07`) carry the correctness proofs. Classes with the
  fields, loops and message queues of one party (`Correlator`, `PartyPrep`, `PartyOffline`,
  `PartyOnline`, `PartyCircuit`, `PrepDN07`, `PartyDN07`) are proved to compute that party's part of
  them. `PartiesFI`, `Parties` and `PartiesOnline` for TurboPack and `PartiesDN07` for DN07 run n of
  these objects side by side with the messages delivered in between, and `Protocol.Run` and
  `ProtocolDN07.Run` put the phases together: they start from the circuit, the randomness and the
  inputs alone and end with the owners' outputs.

| modules | part of the system |
|---|---|
| Field, Poly, EvPoly, Packed, Combine | the field, polynomials, interpolation, packed sharing, packing and extraction |
| FIPrep, Triples, Correlator | function-independent preprocessing |
| Circuits, Gates, Building | circuits, gates with memoised values, layers and batches, construction |
| Mapping, MappingExact | what MapCorrToCircuit's passes put into the map, and on which circuits nothing is missed |
| Batch, TurboPack, PartyPrep, PartyOffline | function-dependent preprocessing of TurboPack |
| Online, PartyOnline, PartyCircuit | online phase and the end-to-end theorem |
| PartiesFI, Parties, PartiesOnline, Protocol | TurboPack run by all parties' objects, phase by phase and end to end |
| Schedule, Interleaving, SameMessages | the online phase under every interleaving of the parties; its programs send what the objects send |
| DN07, DN07Correct, DN07Exact, PrepDN07, PartyDN07 | the DN07 baseline, and exactly when it is correct |
| PartiesDN07, ProtocolDN07 | DN07 run by all parties' objects, phase by phase and end to end |
| Polynomial, LinearAlgebra, Shamir | coefficient polynomials, Gauss-Jordan elimination, Berlekamp-Welch |
| Words, MachineField, Z2k | machine words, Mersenne fields, extended Euclid, rings modulo 2^K |
| Network, Channel | field-element queues between parties; the in-memory byte channel |

Two findings.

The constructor of DN07 admits every n > 2t, but the protocol computes the right values for all
circuits, inputs and randomness if and only if n = 2t + 1, as the experiment sets it
(experiments/dn07.cc): the positions forced to zero are the last t, while all parties with id above
t are silent. `DN07Exact.DN07CorrectExactly` proves both directions for every n and t.

An addition may read an output gate (src/tp/circuits.h:64-68), and DN07 computes such circuits
rightly. TurboPack does not: MapCorrToCircuit maps additions before outputs
(src/tp/circuits/offline.cc:142-147), so the addition finds no share of the output and takes 0.
`Mapping.OperandsThereExactly` proves that this never happens if and only if no addition reads an
output gate. `Online.TurboPackComputes` says what comes out on every circuit,
`MappingExact.WrongWhenAddReadsOutput` runs the smallest wrong one, and
`MappingExact.TurboPackReadsExactly` gives the exact condition for all operands and outputs to be
read rightly in every run: along the paths on which an addition reads an output gate no leaf is
counted, up to multiples of the characteristic (`Mapping.ReadsComplete`). It can be checked on the
circuit alone.

## Model

| member | source | states |
|---|---|---|
| Protocol.Run | src/tp/circuits.h:174-247 | end to end, run by objects: n parties that start from nothing but the circuit, the dealers' randomness and the owners' inputs take all steps of all three phases over their networks; an exception ends the run if and only if the circuit is not well layered, and otherwise every owner ends with the value of each of its outputs, the cleartext value unless the mapping misses something that is read |
| Online.TurboPackCorrect | src/tp/circuits/online.cc:66-72 | end to end, for every admissible (n, t, k), circuit, inputs and all dealers' randomness: the run completes (no "not learned" exception) if and only if the circuit is well layered; if moreover nothing that is read is missed by the mapping, in particular if no addition reads an output gate, every owner obtains exactly the cleartext value of each of its output gates |
| Online.TurboPackComputes | src/tp/circuits/offline.cc:132-147 | what every owner obtains on every well-layered circuit, also where additions read output gates: its wire's value less the part of its mask the mapping does not hold, with every multiplication taking its operands the same way |
| MappingExact.TurboPackReadsExactly | src/tp/circuits/offline.cc:142-147 | on well-layered circuits, for all parameters: in every run every operand of a multiplication and every output is read as its cleartext value if and only if no leaf is missed, modulo the field's characteristic, on the paths to it on which an addition reads an output gate |
| MappingExact.TurboPackOutputsExactly | src/tp/circuits/offline.cc:142-147 | where multiplications read complete wires: every run gives every owner the cleartext values if and only if the outputs are complete |
| MappingExact.WrongWhenAddReadsOutput | src/tp/circuits/offline.cc:142-147 | for all parameters and every input v of the circuit output(v + output(v)) some dealers' randomness gives the owner 2v - 1 instead of 2v |
| MappingExact.OutputOff | src/tp/correlator.h:129-135 | an output then differs from its cleartext value by exactly the part of its mask that the mapping misses |
| MappingExact.MissedSomewhere | src/tp/fi_prep.cc:5-45 | a wire that is not complete has, for some dealers' randomness, a missed part other than 0 |
| Interleaving.EveryInterleaving | src/tp/circuits/online.cc:14-72 | for every schedule of the parties' online steps over blocking FIFO channels, on every well-layered circuit: the parties take at most as many steps as their programs have actions, and are finished exactly when they took all; until then some party can step; when finished all channels are empty, P1 has learned the same mu's as in the sequential run, and every owner has the value of each of its outputs |
| Interleaving.EveryFairSchedule | src/tp/circuits/online.cc:14-72 | every schedule that names all parties again and again, in any order, finishes, with those values |
| ProtocolDN07.Run | src/tp/dn07.h:63-93 | DN07 end to end, run by objects, for every n > 2t: n parties that start from nothing but the circuit, the dealers' randomness and the owners' inputs take all steps of all phases over their networks; an exception ends the run if and only if the circuit is not well layered, and otherwise every owner ends with what the protocol's functions give for each of its outputs, which with n = 2t + 1 is the cleartext value |
| DN07Correct.DN07IsCorrect | src/tp/dn07.cc:126-369 | DN07 end to end with n = 2t + 1: completes if and only if the circuit is well layered, and then every owner reconstructs the cleartext value of each of its output gates |
| DN07Exact.DN07CorrectExactly | src/tp/dn07.h:47-52 | among the n > 2t the constructor admits, every well-layered run of every circuit, with or without additions that read output gates, is correct if and only if n = 2t + 1: for every other n a concrete circuit, input and randomness give a wrong output |
| Shamir.ReconstructShamirRobust | secure-computation-library/include/scl/ss/shamir.h:216-259 | Berlekamp-Welch is exact: whenever at most t of the first 3t + 1 shares are wrong for a polynomial f of degree at most t, the result is f in normal form together with the monic polynomial whose roots are the wrong positions; any success of degree at most t is within t errors; too few shares or points give the two errors |
| LinearAlgebra.SolveLinearSystem | secure-computation-library/include/scl/math/la.h:266-280 | square systems: fails exactly on a size mismatch, finds a solution exactly when the matrix is nonsingular, and then it is the unique solution |
| EvPoly.FromPoints | secure-computation-library/include/scl/ss/evpoly.h:61-68 | construction succeeds exactly for equally many points and values, at least one; what the polynomial evaluates to is EvPoly.InterpolationExact |
| EvPoly.FromStart | secure-computation-library/include/scl/ss/evpoly.h:76-86 | the points are the consecutive ones from the start; fails exactly on no values |
| EvPoly.Evaluate | secure-computation-library/include/scl/ss/evpoly.h:100-113 | the double loop returns Lagrange's value, and divides by zero exactly when two points coincide |
| EvPoly.EvaluateAll | secure-computation-library/include/scl/ss/evpoly.h:120-127 | the values at all given points, in order |
| EvPoly.InterpolateAt | secure-computation-library/include/scl/ss/shamir.h:63-78 | Lagrange's value of the k points from the offset on; division by zero exactly when two of them coincide |
| EvPoly.LagrangeIsPolynomial | secure-computation-library/include/scl/ss/evpoly.h:100-113 | the evaluated function is one polynomial with at most as many coefficients as points, through all the points |
| EvPoly.InterpolationExact | secure-computation-library/include/scl/ss/evpoly.h:100-113 | samples of any polynomial with at most as many coefficients as points evaluate to that polynomial everywhere |
| EvPoly.PlusAddsValues | secure-computation-library/include/scl/ss/evpoly.h:184-198 | Add and Subtract act on values at every point, not only the stored ones |
| EvPoly.EvPolynomial.Plus | secure-computation-library/include/scl/ss/evpoly.h:184-190 | throws exactly when the points differ; what the sum evaluates to is EvPoly.PlusAddsValues |
| Packed.EvPolyFromSecretsAndPoints | secure-computation-library/include/scl/ss/packed.h:46-62 | secrets first, randomness at the remaining points; throws exactly on too many secrets or no points |
| Packed.EvPolyFromSecretsAndDegree | secure-computation-library/include/scl/ss/packed.h:72-80 | points 0, -1, ... for the secrets, then 1, 2, ... up to the degree |
| Packed.EvPolyFromSecretAndPoint | secure-computation-library/include/scl/ss/packed.h:89-97 | one secret at any point, then 1, ..., degree |
| Packed.SharesFromEvPoly | secure-computation-library/include/scl/ss/packed.h:117-123 | the values at 1, ..., n |
| Packed.EvPolyFromShares | secure-computation-library/include/scl/ss/packed.h:131-137 | the shares at 1, ..., n as a polynomial; fails exactly on no shares |
| Packed.SecretsFromSharesAndLength | secure-computation-library/include/scl/ss/packed.h:158-164 | the values at 0, -1, ... of the polynomial through all shares |
| Packed.SecretFromPointAndShares | secure-computation-library/include/scl/ss/packed.h:172-176 | the value at one point of the polynomial through all shares |
| Packed.ReconstructCorrect | secure-computation-library/include/scl/ss/packed.h:145-176 | round trip: a sharing of degree below the number of shares reconstructs, slot by slot, to what was shared |
| Packed.FullDegreeSharing | secure-computation-library/include/scl/ss/packed.h:131-164 | any n shares are a degree n - 1 sharing of a vector if and only if it is what they reconstruct to |
| Packed.SumSharing | secure-computation-library/include/scl/ss/packed.h:111-164 | share-wise sums and differences share the slot-wise ones, with the larger degree |
| Packed.ProductSharing | secure-computation-library/include/scl/ss/packed.h:111-164 | share-wise products share the slot-wise products, with the sum of the degrees |
| Packed.DealExact | secure-computation-library/include/scl/ss/packed.h:72-123 | s is a degree-d sharing of the secrets if and only if some randomness deals exactly s |
| Packed.DealIsSharing | secure-computation-library/include/scl/ss/packed.h:72-123 | dealing with any randomness gives a sharing of the secrets of the requested degree |
| Packed.DealAtIsSharing | secure-computation-library/include/scl/ss/packed.h:89-123 | dealing at one slot shares a vector that has the secret in that slot |
| Combine.PrecomputeEi | src/tp/correlator.h:171-180 | the loops compute the party's shares of all k unit vectors |
| Combine.EiIsBasis | src/tp/correlator.h:171-180 | the product (id+1+j)/(j-i) is the i-th Lagrange basis polynomial of the slots at the party's point |
| Combine.EiSharing | src/tp/correlator.h:171-180 | across parties these are a degree k - 1 sharing of the i-th unit vector |
| Combine.PrecomputeVandermonde | src/tp/correlator.h:183-194 | entry (i, j) is i to the power j |
| Combine.PackSharing | src/tp/fi_prep.cc:108-115 | packing k sharings of degree d with the unit-vector shares shares their diagonal, with degree d + k - 1 |
| Combine.ExtractOne | src/tp/fi_prep.cc:37-43 | one extracted value: the inner product with a Vandermonde column |
| Combine.ExtractBlock | src/tp/fi_prep.cc:36-43 | the t + 1 values of one block, in order |
| Combine.ExtractSharing | src/tp/fi_prep.cc:27-44 | when every party extracts from its own column, the parties hold a sharing of what is extracted from the dealers' secrets, of the dealers' degree |
| FIPrep.ExtractedSharing | src/tp/fi_prep.cc:24-45 | the x-th extracted vector, over all blocks, keeps the degree and its slots are extracted slot-wise |
| FIPrep.IndividualSharing | src/tp/fi_prep.cc:5-45 | individual sharings: degree n - k, the same secret in all k slots |
| FIPrep.UnpackedSharing | src/tp/fi_prep.cc:47-106 | unpacked sharings for slot p: degree t, the extracted secret in slot p |
| FIPrep.ZeroSharings | src/tp/fi_prep.cc:120-168 | zero sharings: degree n - 1, zero in all k slots |
| FIPrep.ZeroAtSharings | src/tp/fi_prep.cc:170-219 | zero sharings for products: degree n - 1, zero in slot p |
| Triples.OpenedSharing | src/tp/fi_prep.cc:250-265 | what P1 deals back: a degree-t sharing with the opened secret in slot p whose first t shares are zero |
| Triples.ProductSharingAt | src/tp/fi_prep.cc:221-291 | after one product round the parties hold a degree-t sharing with the product in slot p, including the parties below t that take share 0 instead of receiving |
| Triples.TriplesCorrect | src/tp/fi_prep.cc:47-298 | every batch gets degree t + k - 1 sharings of A, B and A * B slot by slot, and three degree n - 1 sharings of zero |
| Triples.ZerosCorrect | src/tp/fi_prep.cc:157-159 | mShrO1, mShrO2 and mShrO3 of every batch share zeros |
| Triples.IOZerosCorrect | src/tp/fi_prep.cc:157-165 | every input or output batch gets a sharing of zeros, although the `else` also files the O1 and O2 sharings there |
| Triples.IndividualCorrect | src/tp/fi_prep.cc:24-45 | the held individual shares are sharings of one secret in all slots |
| Batch.ReshareSharing | src/tp/correlator.cc:126-130 | P1's re-sharing of opened values has degree k - 1 |
| Batch.WiresOpened | src/tp/correlator.cc:8-35 | a masked packing of individual sharings opens to the lambdas of the batch |
| Batch.BeaverSharing | src/tp/correlator.cc:156-158 | the combination of opened values, triple and zero has degree n - 1 and the slot-wise value of the formula |
| Batch.PrepBatchCorrect | src/tp/correlator.cc:86-163 | FD preprocessing of a batch: degree t + k - 1 sharings of the left and right lambdas and a degree n - 1 sharing of lambdaA * lambdaB - lambdaC, slot by slot |
| Batch.OnlineBatchCorrect | src/tp/mult_gate.cc:4-72 | online, P1 opens in every slot (muA + lambdaA) * (muB + lambdaB) - lambdaC |
| Circuits.KnownByLevel | src/tp/gate.h:101-107 | after the inputs and L layers a wire can be computed from learned leaves exactly when its level is at most L |
| Mapping.OperandsThereExactly | src/tp/circuits/offline.cc:142-144 | when the pass over the additions reaches an addition both its operands have entries, for all additions, if and only if no addition reads an output gate |
| Mapping.AddsGive | src/tp/correlator.h:129-132 | after the first n gates of that pass the map holds the leaves and these additions, with the entries the recursion describes, and nothing else |
| Mapping.OutputsGive | src/tp/correlator.h:133-135 | the same for the pass over the outputs |
| Mapping.PopulatedGives | src/tp/circuits/offline.cc:132-147 | after all passes every gate has its entry, in which operands that are output gates of an addition count as 0 |
| Mapping.MappedPlusMissed | src/tp/correlator.h:129-135 | the entry and the missed part of a wire make up the sum of its leaves |
| Mapping.MissedIsDot | src/tp/correlator.h:129-135 | the missed part is a linear form of the leaves whose coefficients depend on the circuit only |
| Mapping.NoOutputsComplete | src/tp/circuits/offline.cc:142-147 | without additions that read output gates nothing is missed on any wire |
| Mapping.SpreadUnmasks | src/tp/gate.h:101-107 | if mu + lambda is what the wire carries at all leaves, it is at every wire the recursion reaches |
| Mapping.CarriedIsClear | src/tp/gate.h:101-107 | if all operands of multiplications are read as their cleartext values, every wire carries its cleartext value |
| Mapping.CompleteIsClear | src/tp/gate.h:101-107 | if nothing that is read is missed, every wire carries its cleartext value and is read as it |
| Circuits.WellLayeredByLayers | src/tp/circuits/building.cc:46-64 | a circuit is well layered if and only if each layer only reads earlier ones |
| Circuits.GateInBatch | src/tp/mult_gate.h:224-251 | the p-th gate of a closed layer sits in batch p / k at slot p mod k |
| Circuits.FlattenIndex | src/tp/circuits/offline.cc:132-147 | numbering gates layer by layer gives gate p of layer l the number of all gates before that layer plus p |
| Circuits.BatchTotalMonotone | src/tp/circuits/offline.cc:162-166 | the index ranges of the batches of different layers do not overlap |
| TurboPack.LeafSharing | src/tp/correlator.h:123-128 | each input and multiplication gate gets its own sharing of its mask |
| TurboPack.EntriesAre | src/tp/correlator.h:123-135 | the entries of all parties, and the mask they hide, are those the recursion over the operands gives |
| TurboPack.WireSharing | src/tp/correlator.h:123-135 | every wire's entries at the parties are a degree n - k sharing, in all slots, of what the four passes make of the leaves' masks |
| TurboPack.SlotSharings | src/tp/circuits/offline.cc:132-147 | the shares a batch collects, zero at padding, are sharings of the mapped masks of its slots |
| TurboPack.PrepForReady | src/tp/circuits/offline.cc:132-191 | after mapping and FD preprocessing, every batch of every layer is ready for the mapped masks of exactly its own left, right and output wires, padding having mask 0 |
| TurboPack.MasksOpened | src/tp/correlator.cc:8-83 | whatever zero sharing an input or output batch is mapped to, its owner opens the mapped masks of the batch |
| Online.InputMaskCorrect | src/tp/correlator.cc:22-43 | the lambda an input owner obtains for its p-th gate is the mask of that gate |
| Online.OutputMaskCorrect | src/tp/correlator.cc:61-83 | the lambda an output owner obtains for its p-th gate is the mapped mask of the wire |
| Online.InputsLearned | src/tp/circuits/online.cc:14-31 | after the input phase P1 has learned value - lambda exactly for the input gates |
| Online.GateMuCorrect | src/tp/mult_gate.cc:55-71 | what P1 assigns to the p-th gate of a layer, plus its mask, is the product of its operands as they are read |
| Online.LayerKeepsLearned | src/tp/circuits/online.cc:34-44 | layer invariant: the learned gates are those of the layers run, with mu + lambda what the wire carries |
| Online.LayersRunExactly | src/tp/circuits/online.cc:66-72 | the first L layers run through exactly when each only reads earlier layers |
| Schedule.StepKeepsInv | src/tp/circuits/online.cc:14-72 | one step of any party keeps: everyone is at a prefix of its program and each queue holds exactly the meant messages sent and not yet received |
| Schedule.NoDeadlock | src/tp/circuits/online.cc:14-72 | in every state with the invariant that is not finished some party can step |
| Schedule.AnySchedule | src/tp/circuits/online.cc:14-72 | for coherent programs and every schedule: invariant, no deadlock, a bound on the number of steps, and a finished run is clean |
| Schedule.StepsBounded | src/tp/circuits/online.cc:14-72 | steps taken and actions remaining make up all programs, so runs are finite, and finished exactly when all actions were taken |
| Schedule.FairFinishes | src/tp/circuits/online.cc:14-72 | as many passes over all parties as there are actions finish every coherent system |
| Interleaving.ProgOnChannel | src/tp/circuits/online.cc:14-64 | on every channel, including P1's to itself, what one party sends and what the other receives are the same list of messages |
| Interleaving.LearnedAgrees | src/tp/mult_gate.cc:55-71 | whatever else P1 has heard, the mu's computed from the meant messages are those of the sequential run |
| Interleaving.OnlineCoherent | src/tp/mult_gate.cc:4-72 | each send means its message once everything before it was received, and stages order the messages |
| SameMessages.SameInputs | src/tp/circuits/online.cc:14-20 | the messages the programs list for an owner's inputs are, in order, the values its object puts into its queue to P1 |
| SameMessages.SameOperands | src/tp/mult_gate.cc:4-32 | the same for P1's messages to each party in a layer, two per batch |
| SameMessages.SameShares | src/tp/mult_gate.cc:45-53 | the same for each party's messages to P1 in a layer |
| SameMessages.SameOutputs | src/tp/circuits/online.cc:47-53 | the same for P1's messages to each owner |
| Correlator.SetThreshold | src/tp/correlator.h:92-98 | on 64-bit words accepts exactly n = t + 2(k-1) + 1 with n > 2t where these do not overflow, and for k = 0 only the largest n with t = 0 |
| Correlator.Correlator.ReceiveRun | src/tp/fi_prep.cc:27-44 | one run of blocks: the extracted values, with exactly the run's messages taken from every queue |
| Correlator.Correlator.GenIndShrsPartiesSend | src/tp/fi_prep.cc:5-22 | each party's queue gets exactly its shares of the dealer's blocks, in order |
| Correlator.Correlator.GenIndShrsPartiesReceive | src/tp/fi_prep.cc:24-45 | mIndShrs becomes this party's part of all extracted individual sharings; the rest of the queues is untouched |
| Correlator.Correlator.GenUnpackedShrPartiesSend | src/tp/fi_prep.cc:47-68 | the messages slot by slot and block by block |
| Correlator.FileInThirds | src/tp/fi_prep.cc:100-103 | the counter tests file the first, second and last third, dropping surplus values |
| Correlator.Correlator.GenUnpackedShrPartiesReceive | src/tp/fi_prep.cc:69-116 | factors and masks are filed for every slot, and the batches' A and B packed from them |
| Correlator.Correlator.GenZeroPartiesSend | src/tp/fi_prep.cc:120-136 | the shares of the zero blocks, in order |
| Correlator.Correlator.FileZeros | src/tp/fi_prep.cc:157-165 | which counter values end in O1, O2, O3 and in the input/output list, with the `else` belonging to the last test only |
| Correlator.Correlator.GenZeroPartiesReceive | src/tp/fi_prep.cc:138-168 | every batch gets its three zero shares, and the input/output list the others |
| Correlator.Correlator.GenZeroForProdPartiesSend | src/tp/fi_prep.cc:170-189 | the messages slot by slot and block by block |
| Correlator.Correlator.GenZeroForProdPartiesReceive | src/tp/fi_prep.cc:191-219 | mZeroProdShrs becomes this party's part of the zero sharings of every slot |
| Correlator.Correlator.GenProdPartiesSendP1 | src/tp/fi_prep.cc:221-232 | P1's queue gets the masked products, slot by slot and batch by batch |
| Correlator.Correlator.OpenOne | src/tp/fi_prep.cc:238-265 | one opening: a share is taken from every party, and the parties from t on are sent theirs |
| Correlator.Correlator.GenProdP1ReceivesAndSends | src/tp/fi_prep.cc:234-269 | P1 answers every product to the parties with id at least t and to nobody else; other parties do nothing |
| Correlator.Correlator.GenProdPartiesReceive | src/tp/fi_prep.cc:271-298 | every batch ends with exactly the six values the protocol's specification gives this party, whether it received its shares or took 0 |
| PartyPrep.PartyPrep.MapInputs | src/tp/circuits/offline.cc:134-136 | input gates get consecutive sharings from 0 and nothing else is mapped |
| PartyPrep.PartyPrep.MapMults | src/tp/circuits/offline.cc:137-141 | multiplication gates continue the numbering, layer by layer; the map then holds exactly the leaves' own sharings |
| PartyPrep.PartyPrep.MapAdds | src/tp/circuits/offline.cc:142-144 | in order of creation every addition gets the sum of its operands' entries, a missing one counting as 0 |
| PartyPrep.PartyPrep.MapOutputs | src/tp/circuits/offline.cc:145-147 | every output gets its operand's entry |
| PartyPrep.PartyPrep.MapBatches | src/tp/circuits/offline.cc:149-166 | the b-th batch of layer l gets the entry numbered by all batches before it |
| PartyPrep.PartyPrep.MapCorrToCircuit | src/tp/circuits/offline.cc:132-167 | the map is what the four passes make of the party's individual sharings, every gate has an entry, and multiplication, input and output batches have their own consecutive entries |
| PartyPrep.PartyPrep.PrepMultPartiesSendP1 | src/tp/correlator.cc:86-102 | exactly the two masked shares of the batch are sent, left before right |
| PartyPrep.PartyPrep.PrepMultP1ReceivesAndSends | src/tp/correlator.cc:104-138 | P1 opens both and re-shares them with degree k - 1 to all parties; others do nothing |
| PartyPrep.PartyPrep.PrepMultPartiesReceive | src/tp/correlator.cc:140-163 | the preprocessing set on the batch from the two received shares |
| PartyPrep.PartyPrep.PrepPartiesSendOwner | src/tp/correlator.cc:8-20 | only the owner's queue grows, by the packed lambdas plus the batch's zero share |
| PartyPrep.PartyPrep.PrepOwnerReceives | src/tp/correlator.cc:22-43 | the owner opens the batch from one share of each party; others do nothing |
| PartyPrep.SlotSharesAreColumn | src/tp/correlator.cc:86-93 | the shares a party collects for a batch are its column of the sharings of all parties |
| PartyPrep.SendsItsPart | src/tp/correlator.cc:96-101 | the message of a party is its entry of the masked vectors the batch theorem is about |
| PartyPrep.FinishesItsPart | src/tp/correlator.cc:147-161 | what a party sets on a batch is its entry of the batch's preprocessing |
| Gates.SpreadGrows | src/tp/gate.h:101-107 | a memoised value stays right when more leaves are learned |
| Gates.WireValues.Learn | src/tp/gate.h:37-40 | sets one leaf; every memoised value stays valid unless the leaf had another value before |
| Gates.WireValues.Get | src/tp/gate.h:101-131 | GetMu and GetDn07Share: throws exactly when a leaf below is not set, else the sum of the leaves, with memoisation |
| Gates.ClearWithInputs | src/tp/gate.h:109-115 | with all inputs set, the memoised evaluation is the reference semantics |
| Gates.SomeExactly | src/tp/gate.h:109-115 | an evaluation has a value if and only if every input gate that can be reached from the gate, going from operand to operand, has been set |
| Gates.SomeIsClear | src/tp/gate.h:109-115 | that value is the one of the cleartext semantics under every assignment that agrees with the inputs set so far |
| Gates.ClearValues.GetClear | src/tp/input_gate.h:61-65 | throws exactly when an input gate reachable from the gate has not been set; otherwise gives the gate's value whatever the other inputs are, and never changes the inputs |
| Gates.ClearValues.SetClearInputs | src/tp/circuits/cleartext.cc:4-14 | accepts exactly one list per client of the right length, and then every input gate has its value; memoised values are not cleared |
| Gates.ClearValues.GetClearOutputs | src/tp/circuits/cleartext.cc:26-36 | throws exactly when an input gate reachable from some output gate has not been set; otherwise per client and in order the cleartext values of its output gates |
| Gates.Layer.Append | src/tp/mult_gate.h:224-233 | the layer's gates grow by one while all batches but the last stay full |
| Gates.Layer.Close | src/tp/mult_gate.h:238-251 | after closing, the batches are the gates in groups of exactly k with the last one padded, and one all-padding batch for an empty layer |
| Building.OneMoreGate | src/tp/circuits/building.cc:30-52 | appending a gate changes no level, so a circuit stays well layered exactly when the new gate reads earlier layers |
| Building.InputKeepsWellFormed | src/tp/circuits/building.cc:30-36 | lists of gates stay consistent when an input is appended |
| Building.AddKeepsWellFormed | src/tp/circuits.h:64-68 | the same for additions |
| Building.MultKeepsWellFormed | src/tp/circuits/building.cc:46-52 | the same for multiplications |
| Building.OutputKeepsWellFormed | src/tp/circuits/building.cc:38-44 | the same for outputs |
| Building.LayerKeepsWellFormed | src/tp/circuits/building.cc:54-64 | the same for a new layer |
| Building.Builder.Input | src/tp/circuits/building.cc:30-36 | the whole new circuit after an input |
| Building.Builder.Add | src/tp/circuits.h:64-68 | the whole new circuit after an addition |
| Building.Builder.Mult | src/tp/circuits/building.cc:46-52 | the whole new circuit after a multiplication, which joins the current layer |
| Building.Builder.Output | src/tp/circuits/building.cc:38-44 | the whole new circuit after an output |
| Building.Builder.NewLayer | src/tp/circuits/building.cc:54-64 | an empty layer is opened and nothing else changes |
| Building.AddPair | src/tp/circuits/generic.cc:33-37 | exactly x + y, x(x + y) and y(x + y) are added, the products to the current layer, and the circuit stays well layered |
| Building.PairValues | src/tp/circuits/generic.cc:33-37 | the cleartext values of a pair are x(x + y) and y(x + y) and add up to (x + y) squared |
| Building.FromConfig | src/tp/circuits/generic.cc:4-67 | wherever the source neither divides by zero nor reads a missing gate: which of the four errors is thrown; otherwise the circuit is well formed and well layered, has the requested inputs and outputs, exactly depth layers (one for depth 0) of the requested width, every layer pairs the gates of the one before (the first the inputs, round robin), outputs read layer depth - 1 round robin, and its cleartext values are those of ConfigValue |
| Building.LayerValues | src/tp/circuits/generic.cc:31-50 | the value of gate p of layer d, for all inputs: the product of a value of the row before with the sum of two neighbours |
| Building.ConfigComputes | src/tp/circuits/generic.cc:55-62 | the value of every output of every client, for all inputs |
| PartyOnline.MultBatchRun.P1Sends | src/tp/mult_gate.cc:4-32 | throws exactly when a left or right wire is not learned; otherwise every party is sent its share of muA and then of muB |
| PartyOnline.MultBatchRun.PartiesReceive | src/tp/mult_gate.cc:34-43 | the two shares are taken in order from P1 only |
| PartyOnline.MultBatchRun.PartiesSend | src/tp/mult_gate.cc:45-53 | P1 is sent the party's entry of the online share vector |
| PartyOnline.MultBatchRun.P1Receives | src/tp/mult_gate.cc:55-72 | P1 opens one share per party and learns exactly the batch's gates, keeping what it knew |
| PartyOnline.OwnerSendsP1 | src/tp/input_gate.h:85-87 | only the owner sends, value minus lambda |
| PartyOnline.InputP1Receives | src/tp/input_gate.h:89-94 | only P1 learns, from the owner's queue |
| PartyOnline.P1SendsMu | src/tp/output_gate.h:91-95 | throws exactly when the wire is not learned; otherwise mu goes to the owner only |
| PartyOnline.OwnerReceivesMu | src/tp/output_gate.h:98-104 | the owner's value is lambda plus the received mu; others keep theirs |
| PartyOffline.PrepMultPartiesSendP1 | src/tp/circuits/offline.cc:170-176 | over all layers and batches P1's queue gets exactly two messages per batch, each at the place the batch's number gives it; other queues stay |
| PartyOffline.PrepMultP1ReceivesAndSends | src/tp/circuits/offline.cc:177-184 | P1 answers exactly as many pairs as there are batches, in order, to every party; others do nothing |
| PartyOffline.PrepMultPartiesReceive | src/tp/circuits/offline.cc:185-191 | every batch of every layer is set from its own two messages, and exactly those are consumed |
| PartyOffline.PrepIOPartiesSendOwner | src/tp/circuits/offline.cc:193-204 | each owner's queue grows by its input batches and then its output batches |
| PartyOffline.PrepIOOwnerReceives | src/tp/circuits/offline.cc:206-217 | a party opens exactly its own input batches and then its own output batches, none if it owns no lists |
| PartyOffline.SendsItsEntry | src/tp/correlator.cc:86-102 | with its own share of the preprocessing, a party sends its entries of the batch's masked vectors |
| PartyOffline.SentIsFrom | src/tp/circuits/offline.cc:170-176 | what the sending loop puts in the queue is what the phase theorem expects of it |
| PartyOffline.PhaseGivesPrep | src/tp/circuits/offline.cc:170-191 | the whole phase: if P1's queues start with what the parties send, then from P1's answers each party sets its entry of the preprocessing of every batch |
| PartyOffline.OwnerOpensMasks | src/tp/correlator.cc:8-83 | if every party sends what the sending loop sends, an owner opens exactly the masks of its batch |
| PartyCircuit.InputOwnerSendsP1 | src/tp/circuits/online.cc:14-20 | P1's queue grows by the party's own masked inputs, in order, and by nothing else |
| PartyCircuit.InputMsgIsMu | src/tp/input_gate.h:85-87 | with the opened lambda the message for an input is that of the protocol |
| PartyCircuit.InputP1Receives | src/tp/circuits/online.cc:21-27 | P1 learns exactly the input gates, each from its owner's queue in order; others do nothing |
| PartyCircuit.LayerP1Sends | src/tp/circuits/online.cc:34 | over a layer: throws exactly when some batch reads a wire that is not learned, otherwise every party gets two shares per batch in order |
| PartyCircuit.LayerPartiesReceive | src/tp/circuits/online.cc:35 | each batch takes its own two messages |
| PartyCircuit.LayerPartiesSend | src/tp/circuits/online.cc:36 | one online share per batch, in order |
| PartyCircuit.LayerP1Receives | src/tp/circuits/online.cc:37 | P1 learns exactly the gates of the layer, batch b from message b of every party |
| PartyCircuit.LayerIsRun | src/tp/circuits/online.cc:39-44 | if every party sent its online shares, P1's table after the layer is that of the protocol the end-to-end theorem is about |
| PartyCircuit.OutputP1SendsMu | src/tp/circuits/online.cc:47-53 | throws exactly when an output is not available at P1, otherwise each owner gets the mu's of its outputs in order |
| PartyCircuit.OutputOwnerReceivesMu | src/tp/circuits/online.cc:54-82 | the outputs of a party are lambda plus the received mu, in order |
| PartiesFI.FIPrepSend | src/tp/circuits.h:189-194 | one party's four runs of dealings, in this order, to every party |
| PartiesFI.FIPrepRecv | src/tp/circuits.h:196-201 | one party takes exactly these from every queue and files all of them |
| PartiesFI.RunFIPhase | src/tp/circuits.h:189-205 | n correlators taking these steps in turn, with the messages delivered in between, each end with exactly their part of what the functions of the preprocessing say, and nothing is left on the way |
| Parties.MapAll | src/tp/circuits/offline.cc:132-167 | every party's data is mapped |
| Parties.MultsToP1 | src/tp/circuits/offline.cc:170-176 | what arrives at P1 is what the phase theorem expects of its queues, and nobody else receives anything |
| Parties.AnswerMults | src/tp/circuits/offline.cc:177-184 | what arrives at the parties is P1's answers, and P1 has taken everything |
| Parties.ReceiveMults | src/tp/circuits/offline.cc:185-191 | every party holds its entry of the preprocessing of every batch |
| Parties.IOToOwners | src/tp/circuits/offline.cc:193-204 | each owner receives from every party the messages for its own batches |
| Parties.ReceiveIO | src/tp/circuits/offline.cc:206-217 | each owner opens the mapped masks of its own batches |
| Parties.RunFDPhase | src/tp/circuits/offline.cc:132-217 | n parties running the whole function-dependent preprocessing: every one ends with its entry of the preprocessing of every batch, every owner with the masks of its wires, and nothing is left on the way |
| PartiesOnline.InputPhase | src/tp/circuits/online.cc:14-31 | after the parties' input steps P1's table is LearnInputs of the protocol |
| PartiesOnline.MultLayer | src/tp/circuits/online.cc:33-44 | one layer at all parties is RunLayer of the protocol, with an exception exactly where that has no value |
| PartiesOnline.MultLayers | src/tp/circuits/online.cc:66-72 | all layers in turn are RunLayers of the protocol |
| PartiesOnline.ReceiveOutputs | src/tp/circuits/online.cc:54-64 | each owner obtains for each of its outputs what the protocol's function gives |
| PartiesOnline.SetLambdas | src/tp/correlator.cc:38-41 | the owner's gates get the mapped masks of their wires as lambdas |
| PartiesOnline.RunOnline | src/tp/circuits/online.cc:14-72 | n parties running the online phase: it throws exactly when the circuit is not well layered, and otherwise gives every owner what the protocol's functions give |
| PartiesOnline.RunTurboPack | src/tp/circuits.h:207-247 | function-dependent preprocessing and online phase run by n parties from given correlators |
| Network.Deliver | secure-computation-library/src/scl/net/network.cc:101-122 | everything on its way arrives in order at its receiver, also what a party sends itself |
| DN07.RandSharing | src/tp/dn07.cc:74-93 | the x-th random sharing: degree t, of the secret extracted from the dealers' secrets |
| DN07.DoubleSharing | src/tp/dn07.cc:95-121 | the x-th double sharing shares one secret with degrees t and 2t |
| DN07.ZeroEndSharing | src/tp/dn07.cc:215-232 | interpolating the value at 0 and zeros at the last t positions gives a degree-t sharing of the value whose last t shares are zero |
| DN07.QueueStep | src/tp/dn07.cc:283-285 | popping one vector per gate leaves the queue at the next layer |
| DN07Correct.SilentShareFinal | src/tp/dn07.cc:144-167 | the share a silent party computes before any input exists is its share of the wire later on |
| DN07Correct.Unmasked | src/tp/dn07.cc:251-254 | adding the mask to the zero-ended sharing of value - mask shares the value, with the silent parties' mask shares unchanged |
| DN07Correct.WireSharing | src/tp/gate.h:125-131 | on every available wire all n parties together hold a degree-t sharing of the cleartext value |
| DN07Correct.AssembledOpens | src/tp/dn07.cc:275-291 | fresh and queued shares together open to the product minus the double sharing's secret |
| DN07Correct.QueueAligned | src/tp/dn07.cc:169-184 | at layer l the front of the queue holds the vectors of that layer's gates, in order |
| DN07Correct.InputsLearned | src/tp/dn07.cc:188-258 | after the input phase the parties share the cleartext inputs |
| DN07Correct.LayerKeepsLearned | src/tp/dn07.cc:260-340 | a layer keeps: the parties share the cleartext value of every gate learned so far |
| DN07Correct.LayersRunExactly | src/tp/dn07.cc:260-340 | the first L layers run through exactly when each only reads earlier layers |
| DN07Correct.SilentGoesThrough | src/tp/dn07.cc:144-167 | on a well-layered circuit the silent parties' early phase never throws |
| DN07Exact.ConsecutiveRoots | src/tp/dn07.cc:298-308 | a polynomial with roots a, ..., b takes values at 0 and 1 in the ratio b to a - 1 |
| DN07Exact.FirstZeroEndShare | src/tp/dn07.cc:298-310 | with zeros at the last t of n parties, the first share of 1 is (n - t) / n |
| DN07Exact.SquareRun | src/tp/dn07.cc:198-369 | a complete run that squares an input: what the owner gets, in terms of the mask alone, for any admitted n and t |
| DN07Exact.OneMaskFails | src/tp/dn07.cc:275-291 | for n other than 2t + 1 at least one of two masks makes P1 open a wrong product |
| PrepDN07.PrepDN07.PrepPartiesSend | src/tp/dn07.cc:35-71 | each queue gets the random shares and then, alternating, both halves of the double sharings |
| PrepDN07.PrepDN07.PrepPartiesReceive | src/tp/dn07.cc:73-122 | the party ends with its part of all extracted sharings, and exactly those messages are consumed |
| PartyDN07.PartyDN07.Number | src/tp/dn07.cc:126-142 | running counters number the gates of a list of lists consecutively |
| PartyDN07.PartyDN07.FDMapPrepToGates | src/tp/dn07.cc:126-142 | each input gate its own random sharing, each multiplication its own double sharing |
| PartyDN07.PartyDN07.SilentGate | src/tp/dn07.cc:156-163 | sets the gate's share, then throws exactly when an operand has none, else sends the masked product |
| PartyDN07.PartyDN07.FDMultPartiesSendP1 | src/tp/dn07.cc:144-167 | for parties with id above t: goes through exactly when every gate's operands have shares when it is reached, and then P1's queue gets one message per gate in layer order; the other parties do nothing |
| PartyDN07.PartyDN07.FDMultP1Receives | src/tp/dn07.cc:169-184 | P1's queue of vectors grows by one vector per gate, from the last parties only |
| PartyDN07.PartyDN07.InputPartiesSendOwners | src/tp/dn07.cc:188-196 | parties 0, ..., t send each owner the random shares of its inputs; others send nothing |
| PartyDN07.PartyDN07.SharesWithZeros | src/tp/dn07.cc:293-310 | the t + 1 shares of a value with zeros at the last t positions |
| PartyDN07.PartyDN07.InputOwnersReceiveAndSendParties | src/tp/dn07.cc:198-239 | for each of its inputs the owner opens the mask and sends the first t + 1 parties zero-ended shares of input minus mask |
| PartyDN07.PartyDN07.InputPartiesReceive | src/tp/dn07.cc:241-258 | parties 0, ..., t set all inputs to message plus mask share; others set nothing |
| PartyDN07.PartyDN07.MultPartiesSendP1 | src/tp/dn07.cc:260-270 | throws exactly when a gate of the layer reads a wire without a share; otherwise one message per gate, in order |
| PartyDN07.PartyDN07.MultP1Receives | src/tp/dn07.cc:272-314 | each gate pops one vector, opens it with the t + 1 fresh shares and queues zero-ended shares of the result |
| PartyDN07.PartyDN07.MultP1SendsParties | src/tp/dn07.cc:315-324 | the queued vectors go out in order to the first t + 1 parties |
| PartyDN07.PartyDN07.MultPartiesReceive | src/tp/dn07.cc:326-340 | the layer's gates get message plus double share, everything known before stays |
| PartyDN07.PartyDN07.OutputPartiesSendOwners | src/tp/dn07.cc:342-351 | throws exactly when an output has no share; otherwise each owner gets the shares of its outputs |
| PartyDN07.PartyDN07.OutputOwnersReceive | src/tp/dn07.cc:353-369 | each output is opened from the first t + 1 parties' shares, in order; a gate listed twice keeps the last result |
| PartyDN07.OwnParts | src/tp/dn07.cc:126-142 | a party's shares for a gate are its entries of the vectors of all parties |
| PartyDN07.SilentPart | src/tp/dn07.cc:156-163 | a silent party's message for a gate is its entry of P1's vector |
| PartyDN07.QueueOfTheRun | src/tp/dn07.cc:169-184 | if the last parties sent what FDMultPartiesSendP1 sends, P1's queue is the queue of the run |
| PartyDN07.ActivePart | src/tp/dn07.cc:260-270 | an active party's message for a gate is its entry of what P1 assembles |
| PartyDN07.NewSharePart | src/tp/dn07.cc:326-340 | P1's answer to any active party, plus that party's double share, is its share of the gate in the run |
| PartyDN07.InputPart | src/tp/dn07.cc:241-258 | the owner's message to any active party, plus that party's mask share, is its share of the input in the run |
| PartiesDN07.PrepPhase | src/tp/dn07.cc:35-122 | n parties dealing and receiving: each ends with its part of all extracted random and double sharings, and nothing is left on the way |
| PartiesDN07.EarlyPhase | src/tp/dn07.cc:144-184 | the last parties' early messages at all parties: throws exactly when one of them lacks a share, and otherwise P1 ends with the queue of the run and nobody else with anything |
| PartiesDN07.MaskRound | src/tp/dn07.cc:198-210 | the p-th round of messages an owner receives is the sharing of the mask of its p-th input |
| PartiesDN07.InputPhase | src/tp/dn07.cc:188-258 | n parties running the input steps: every active party ends with its entry of the sharing of every input, gate by gate, as the functions of the protocol give them |
| PartiesDN07.ProductRound | src/tp/dn07.cc:272-291 | the p-th round of messages P1 receives for a layer, with the p-th vector of its queue, is what it assembles for gate p |
| PartiesDN07.MultLayer | src/tp/dn07.cc:260-340 | n parties running the four steps of a layer: an exception exactly where the protocol's RunLayer has no value, and otherwise every active party has its share of every gate of the layer and P1's queue has moved on, as RunLayer says |
| PartiesDN07.MultLayers | src/tp/dn07.cc:260-340 | the same for all layers |
| PartiesDN07.OutputPhase | src/tp/dn07.cc:342-369 | n parties running the output steps: every owner ends with what the run gives for each of its output gates |
| PartiesDN07.RunParties | src/tp/dn07.cc:126-369 | from the sharings to the results, all parties together, for every n > 2t: throws if and only if the circuit is not well layered |
| DN07Correct.LayersGoThrough | src/tp/dn07.cc:260-340 | for every n > 2t the first L layers run through exactly when each only reads earlier layers, and then exactly their gates have shares |
| Polynomial.Create | secure-computation-library/include/scl/ss/poly.h:153-167 | the normal form: leading zeros cut, [0] for the zero polynomial |
| Polynomial.NormalUnique | secure-computation-library/include/scl/ss/poly.h:153-167 | equal coefficients in normal form are equal vectors |
| Polynomial.Evaluate | secure-computation-library/include/scl/ss/poly.h:61-67 | Horner's loop computes the polynomial's value |
| Polynomial.Plus | secure-computation-library/include/scl/ss/poly.h:182-190 | the normal form of the sum |
| Polynomial.Minus | secure-computation-library/include/scl/ss/poly.h:192-200 | the normal form of the difference |
| Polynomial.Times | secure-computation-library/include/scl/ss/poly.h:202-211 | the in-place double loop computes the normal form of the product |
| Polynomial.DivideLeadingTerms | secure-computation-library/include/scl/ss/poly.h:215-223 | the quotient of the leading terms |
| Polynomial.Divide | secure-computation-library/include/scl/ss/poly.h:227-242 | throws exactly for the zero divisor; otherwise terminates with this = q * d + r, both in normal form, and r zero or of smaller degree |
| Polynomial.RoundShortens | secure-computation-library/include/scl/ss/poly.h:236-240 | each round shortens the remainder or makes it zero |
| Polynomial.DivisionUnique | secure-computation-library/include/scl/ss/poly.h:227-242 | quotient and remainder are the only ones with that property |
| Polynomial.QuotientEval | secure-computation-library/include/scl/ss/poly.h:94-98 | the division equation holds at every point |
| LinearAlgebra.SwapRows | secure-computation-library/include/scl/math/la.h:38-47 | exchanges the two rows and nothing else |
| LinearAlgebra.MultiplyRow | secure-computation-library/include/scl/math/la.h:56-58 | scales one row and nothing else |
| LinearAlgebra.AddRows | secure-computation-library/include/scl/math/la.h:68-70 | adds a multiple of a row to another, or to itself, and nothing else |
| LinearAlgebra.RowReduceInPlace | secure-computation-library/include/scl/math/la.h:77-110 | terminates in reduced row echelon form with the same kernel, hence the same solutions of the augmented system |
| LinearAlgebra.HasSolution | secure-computation-library/include/scl/math/la.h:201-220 | true exactly when no row, or no row with a nonzero right side, is zero on the left |
| LinearAlgebra.ConsistentExactly | secure-computation-library/include/scl/math/la.h:201-220 | in echelon form the second test holds if and only if the system has a solution |
| LinearAlgebra.SquareDecided | secure-computation-library/include/scl/math/la.h:201-220 | for square systems the first test holds if and only if the original matrix is nonsingular, and then the last column is the only solution |
| LinearAlgebra.GetPivotInColumn | secure-computation-library/include/scl/math/la.h:117-129 | the lowest nonzero entry of the column if nothing stands left of it, where the entry directly to the left is skipped as in the code |
| LinearAlgebra.FindFirstNonZeroRow | secure-computation-library/include/scl/math/la.h:135-149 | the last row that is not zero, or -1 |
| LinearAlgebra.ExtractSolution | secure-computation-library/include/scl/math/la.h:165-187 | on square systems all accesses are in range, and on identity form it returns the last column |
| LinearAlgebra.CreateAugmentedMatrix | secure-computation-library/include/scl/math/la.h:229-254 | the matrix with the right side as last column |
| Shamir.CreateShamirSharePolynomial | secure-computation-library/include/scl/ss/shamir.h:45-52 | throws exactly for threshold 0; otherwise the normal form with the secret as constant term |
| Shamir.CreateShamirShares | secure-computation-library/include/scl/ss/shamir.h:89-97 | the polynomial's values at the alphas |
| Shamir.CanonicalAlphas | secure-computation-library/include/scl/ss/shamir.h:106-110 | the points 1, ..., n |
| Shamir.ReconstructShamirPassive | secure-computation-library/include/scl/ss/shamir.h:139-146 | all three error cases, otherwise interpolation of the first t + 1 shares |
| Shamir.ReconstructShamir | secure-computation-library/include/scl/ss/shamir.h:186-201 | returns if and only if the first 2t + 1 points lie on one polynomial of degree at most t, and then that polynomial's value |
| Shamir.AlteredSharesDetected | secure-computation-library/include/scl/ss/shamir.h:186-201 | from 1 to t altered shares among them are always detected |
| Shamir.BuildSystem | secure-computation-library/include/scl/ss/shamir.h:233-245 | the loops fill in the Berlekamp-Welch system for the guess e |
| Shamir.FullSystem | secure-computation-library/include/scl/ss/shamir.h:233-247 | a solution of the system is exactly a monic locator and a product polynomial satisfying the key equation |
| Shamir.TooManyGuessed | secure-computation-library/include/scl/ss/shamir.h:230-248 | a guess above the number of errors gives a singular system |
| Shamir.RightGuess | secure-computation-library/include/scl/ss/shamir.h:230-248 | the right guess gives a nonsingular system |
| Shamir.NoGuess | secure-computation-library/include/scl/ss/shamir.h:230-248 | e = 0 always gives a nonsingular system, so the search always ends with a solution |
| Shamir.StopsAtErrors | secure-computation-library/include/scl/ss/shamir.h:230-248 | the search from t down stops exactly at the number of errors |
| Shamir.SearchFinds | secure-computation-library/include/scl/ss/shamir.h:230-254 | the solution found there is the locator of the errors and a multiple of it by f |
| Shamir.FinishDecoding | secure-computation-library/include/scl/ss/shamir.h:250-258 | throws exactly when the division leaves a remainder |
| Shamir.DecodedIsClose | secure-computation-library/include/scl/ss/shamir.h:253-256 | a decoded polynomial disagrees with at most e shares |
| Shamir.LocatorRoots | secure-computation-library/include/scl/ss/shamir.h:250-253 | the locator is monic and its roots are exactly the points of the wrong shares |
| Shamir.RecoverSecret | secure-computation-library/include/scl/ss/shamir.h:265-269 | with canonical points the secret is recovered from up to t errors |
| Shamir.ShareAlterRecover | secure-computation-library/include/scl/ss/shamir.h:121-126 | sharing a secret, replacing up to t of the shares by anything and decoding returns exactly the secret |
| MachineField.AddSimpleType | secure-computation-library/include/scl/math/fields/details.h:34-37 | the reduced sum, with no word overflow |
| MachineField.SubtractSimpleType | secure-computation-library/include/scl/math/fields/details.h:43-48 | the reduced difference, with no word underflow |
| MachineField.NegateSimpleType | secure-computation-library/include/scl/math/fields/details.h:54-56 | the reduced negative |
| MachineField.InverseModPrimeSimpleType | secure-computation-library/include/scl/math/fields/details.h:70-100 | throws exactly for 0; the result is reduced and times v is congruent to gcd(m, v), and every intermediate value fits the signed word |
| MachineField.GcdDivides | secure-computation-library/include/scl/math/fields/details.h:87-91 | the loop's last nonzero remainder divides both numbers |
| MachineField.GcdIsGreatest | secure-computation-library/include/scl/math/fields/details.h:87-91 | every common divisor divides it |
| MachineField.PrimeIsCoprime | secure-computation-library/include/scl/math/fields/details.h:67-70 | for a prime modulus it is 1 |
| MachineField.Invert | secure-computation-library/src/scl/math/fields/mersenne61.cc:25-27 | for the prime P the loop computes the field's inverse |
| MachineField.Fold | secure-computation-library/src/scl/math/fields/mersenne61.cc:34-44 | adding the part above and the part below n = 2^b keeps the value modulo n - 1 |
| MachineField.FoldRange | secure-computation-library/src/scl/math/fields/mersenne61.cc:34-44 | for reduced factors one conditional subtraction suffices |
| MachineField.Multiply61 | secure-computation-library/src/scl/math/fields/mersenne61.cc:34-44 | the canonical product modulo 2^61 - 1, with 64-bit truncation and the or in place of an addition as in the code |
| MachineField.FullWords | secure-computation-library/src/scl/math/fields/mersenne127.cc:39-54 | the limb sums are the exact double-width product and no word overflows |
| MachineField.MultiplyFull | secure-computation-library/src/scl/math/fields/mersenne127.cc:39-54 | high and low words of the exact product |
| MachineField.Multiply127 | secure-computation-library/src/scl/math/fields/mersenne127.cc:56-65 | the canonical product modulo 2^127 - 1 |
| Z2k.AddZ2k | secure-computation-library/include/scl/math/z2k/details.h:38-40 | wrap-around addition is right modulo every 2^k up to the word |
| Z2k.SubtractZ2k | secure-computation-library/include/scl/math/z2k/details.h:46-48 | the same for subtraction |
| Z2k.MultiplyZ2k | secure-computation-library/include/scl/math/z2k/details.h:54-56 | the same for multiplication |
| Z2k.NegateZ2k | secure-computation-library/include/scl/math/z2k/details.h:62-64 | the same for negation |
| Z2k.EqualZ2k | secure-computation-library/include/scl/math/z2k/details.h:104-106 | masked equality is congruence modulo 2^k, below the word width |
| Z2k.FirstFiveBits | secure-computation-library/include/scl/math/z2k/details.h:88-89 | (3v) xor 2 inverts an odd v modulo 32 |
| Z2k.NewtonStep | secure-computation-library/include/scl/math/z2k/details.h:90-93 | one round doubles the number of correct bits |
| Z2k.WordStep | secure-computation-library/include/scl/math/z2k/details.h:90-93 | so does a round in wrap-around arithmetic, up to the word width |
| Z2k.InvertZ2k | secure-computation-library/include/scl/math/z2k/details.h:84-96 | throws exactly for even values; otherwise an inverse modulo 2^K |
| Z2k.EvenNotInvertible | secure-computation-library/include/scl/math/z2k/details.h:85-86 | even values have no inverse |
| Channel.InMemoryChannel.Recv | secure-computation-library/src/scl/net/mem_channel.cc:9-40 | exactly the next n bytes of the stream are written and the rest stays, whatever the sizes of the messages; the buffer beyond n is untouched |
| Channel.InMemoryChannel.Send | secure-computation-library/src/scl/net/mem_channel.cc:5-7 | the message is appended to the peer's queue |
| Channel.CreatePaired | secure-computation-library/include/scl/net/mem_channel.h:47-52 | each end reads what the other writes, and both streams start empty |
| Channel.Play | secure-computation-library/src/scl/net/mem_channel.cc:5-40 | any sequence of sends and receives at both ends gives the bytes an ideal pair of byte streams gives |
| Channel.NothingLost | secure-computation-library/src/scl/net/mem_channel.cc:9-40 | bytes received at an end followed by those under way are exactly the bytes sent to it, in order |
| Network.Net.SendEach | src/tp/fi_prep.cc:18-20 | each party's queue from the first on grows by its own entry |
| Network.Net.RecvEach | src/tp/fi_prep.cc:31-35 | one value is taken from the front of each queue, in party order |

## Left out

- Privacy: only the values computed are modelled, not what a set of parties learns.
- The AES generator and all sampling: its output is an argument.
- TCP, sockets, discovery, threaded senders, configuration files, timers and the experiments' mains.
- Hash functions, string and number parsing, printing, serialisation, and the vector and matrix
  wrappers.
- The dummy preprocessing used by tests.
- `OutputGate::GetIndvShrLambda` returns another field than the one it computes
  (src/tp/output_gate.h:50-56); nothing in the protocol calls it and it is not modelled.
- There is no single object for the whole circuit that holds all layers, gates and the correlator:
  Protocol.Run and ProtocolDN07.Run hand what one phase produces to the next.
- `Circuit::SetInputs` and `DN07::SetInputs`: an owner's input values are arguments.
- Preprocessing and DN07 under interleavings: arbitrary schedules are modelled for TurboPack's online
  phase; everything else is run phase by phase.
- DN07 with fewer clients than parties: every party reads the input and output lists with its own
  number as index, which the source then does outside the lists.
- MappingExact.TurboPackOutputsExactly: for circuits whose multiplications read complete wires. Where
  they do not, errors of different products can cancel in an output; what comes out there is
  Online.TurboPackComputes, and that something is read wrongly is MappingExact.TurboPackReadsExactly.
- LinearAlgebra.SolveLinearSystem: square systems only. On wider or taller ones the source's
  ExtractSolution can index outside the matrix, and GetPivotInColumn skips the entry directly left
  of the pivot, so nothing useful holds there.
- LinearAlgebra.ExtractSolution: its value is stated for identity form, the only one SolveLinearSystem
  passes it; for other forms only that it stays in range.
- Shamir.ReconstructShamirRobust: with more than t errors nothing is promised beyond the error cases
  and the closeness of a result of degree at most t.
- Gates.WireValues.Learn: setting a leaf that was set before to another value leaves stale memoised
  sums, in the source too, so the memoised values are not promised to be right after it.
- Gates.ClearValues.SetClearInputs: the same for a table that has memoised values already.
- Building.FromConfig: without inputs, or with outputs but no layers or width 0, the source divides by
  zero or reads a layer that does not exist.
- Z2k.EqualZ2k: K below the word width; at the width the source's mask shifts by the whole width.
- Flushing a channel, and two threads inside one channel operation.
- Mutating a polynomial through `operator[]`; the normal form is kept by all modelled operations.
