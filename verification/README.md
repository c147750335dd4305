# Eggscrambler, verified

Eggscrambler is an anonymous broadcast protocol: in every round each participant submits one message, and at the end
everybody learns all messages, in an order that nobody can trace back. A replicated state machine takes a round through
its phases (prepare, submit, encrypt, scramble, decrypt, reveal, done). Clients watch the state machine and send it
operations that they computed from what they last saw. Messages travel under layers of a commutative cipher.

This project models that protocol in Dafny and proves, for all inputs and all runs, what it is meant to guarantee.

| file | content |
|---|---|
| `Seqs`, `NumberTheory`, `Bytes` | permutations, Fermat's little theorem, big-endian numbers |
| `MasseyOmura`, `Crypto` | the cipher, padding, key generation, the byte-string adapter |
| `Ops`, `Rounds`, `Runs` | operations, the state machine on values, facts about runs of arbitrary operations |
| `Documented`, `Origins`, `Stages` | the operations against their documentation, where participants and crypto come from, which phases follow which |
| `StateMachines` | the state machine on mutable records and shared slices, and its deep copy |
| `Layers`, `ClientSteps`, `Shuffles`, `Clients` | layers of keys, one client update on values, the shuffle, the client object |
| `Honest`, `HonestSteps`, `Protocol` | the layer invariant, the system of clients and log, its invariant over all runs |
| `RoundResults`, `EndToEnd`, `Sayings` | the verification of a finished round, what arrives in the end, what the users had said |
| `Deeds`, `Progress`, `NoDeadlock`, `Turns` | who did what, outstanding work, absence of deadlock, exactly when a client sends |
| `Completion`, `Beginnings` | finishing every started round, and every round that nobody has started |
| `ClientMemory`, `Reports`, `Dispatches` | what the clients of a run remember, and what they tell their users |
| `EliminationQueues`, `Elimination` | the queue of pending operations, and why dropping is harmless |
| `Servers`, `ClientLoops`, `ResultOrderers` | what an OK reply means, a client over a stream of updates, the reorder buffer |

Two kinds of statements are kept apart. Statements about `Valid` states and `Run` hold for arbitrary operations, whoever
made them. Statements about `IsRun` hold for systems whose clients follow the protocol. In such a system a client may
compute an operation from any earlier state it has not moved past, and the log may commit any computed operation at any
later time, in any order, repeatedly or never; a round may be aborted at any time; the crypto of a round may be anything.

## Main results

- `EndToEnd.RunDelivers`: when a round of a run is done, peeling the revealed keys off the stored messages gives the
  submitted texts, rearranged. `Dispatches.DispatchReports` carries this from what the users chose to what they are told:
  at the update where a participant of the run dispatches the result, its report is a success with exactly the non-empty
  texts that the users chose if, and only if, none of them has the full message size and their headers got different random
  bytes. A client that did not join is told nothing (`Dispatches.RunToldIfJoined`).
- `Protocol.RunKeepsInv`: every message of every stored round carries exactly the layers that its phase prescribes.
- `MasseyOmura.PeelAnyOrder`: any number of keys come off in any order. Fermat's theorem is proved, primality is the only
  assumption.
- `Stages.MayPrecedeExactly` and `Stages.GuaranteedExactly`: both questions that clients and servers ask about the state are
  answered exactly, in terms of the runs of the machine. `Documented.NoOpExactly` and `Documented.EffectExactly` do the same
  for the documentation of the operations, and `Origins.StoredCrypto` and `Origins.StoredParticipants` trace what is stored
  back to the log.
- `Runs.GuaranteedNoEffectSound`, `Runs.NoTemporaryNoOp`, `Runs.TestAndSet`, `Servers.OkNeedsNoRetry`: stale operations do
  no harm, and an operation that was answered OK never needs to be sent again.
- `Elimination.QueueLosesNothing`: in every run, whatever a client's queue has thrown away for a newer operation could
  never have mattered.
- `Beginnings.RunFinishesFromPrepare` and `Completion.RunFinishes`: from every run a round can be joined, started and brought
  to Done. `Turns.SendsExactly` says exactly when a client sends an operation. `NoDeadlock.NeverStuck` gives the next step,
  and `Progress.CommitOutstanding` a count of 5n that it brings down by one.
- `StateMachines.StateMachine.Apply` and `StateMachines.ApplyAfterSnapshot`: the state machine on mutable slices refines the
  one on values, and a deep copy is unaffected by whatever is applied to the original.

## Where the promise fails

- A message of exactly the maximum size is accepted but does not come back. `pad` then starts with the zero separator, and
  the conversion to a number drops leading zeros. The documentation of `Verify` (anonbcast/crypto.go:118-120) and of
  `MessageSize` promise sizes up to and including the maximum. `MasseyOmura.AcceptsLossyMessage` is a concrete case and
  `MasseyOmura.RoundTripExactly` the exact condition: of the accepted messages, those and only those below the maximum come
  back. `EndToEnd.DeliveredExactly` says the same of texts with header. If such a text has no zero byte, extracting it
  panics, and then so does every participant of the round that would report it (`Reports.RunLostText`). The end-to-end
  statements follow the code.
- An abort may replace a live operation in the elimination queue: a client that times out while its message waits to be
  committed drops that message (`Elimination.AbortDropsLiveOp`). `Elimination.AbortDropExactly` is the exact condition in
  every run: dropping changes no continuation if and only if the operation is dead, which its round, phase, count and flag
  tell. `Elimination.AbortedIsDead` shows that the dropped operation is dead once the abort is committed.
- The state machine starts a round that nobody joined (`NoDeadlock.EmptyRoundStarts`). `NoDeadlock.StuckExactly` says when a
  started round is stuck but for an abort: if and only if it has no participants. A client starts only rounds that it has
  joined, so no run contains such a round (`NoDeadlock.RunNeverEmpty`). It is also the only case in which GuaranteedNoEffect
  answers false though no operation of the kind can have an effect any more (`Stages.GuaranteedExactly`).
- A client that subscribes in the middle of a run violates the assertion that it dispatches results in order
  (anonbcast/client.go:539); `ClientLoops.LateStartOutOfOrder` is a concrete case. For its first dispatch
  `ClientLoops.FirstDispatchInOrderExactly` gives the condition: it started in round 0, or at the beginning of round 1. All
  later dispatches are in order, and each result is dispatched exactly once in any case (`ClientLoops.DispatchedOnce`).
- The comment on `DecryptedOp.Prev` (anonbcast/op.go:131-133) speaks of scrambled participants; the code counts decrypted
  ones, and the model follows the code.

## Model

| member | source | states |
|---|---|---|
| `MasseyOmura.GenUserKey` | masseyomura/keygen.go:45-70 | a generated pair is inverse modulo P-1 and uses the first coprime draw; it fails exactly when no draw is coprime |
| `NumberTheory.ModInverseCorrect` | masseyomura/keygen.go:60-63 | the inverse of a coprime exponent exists, is in range and multiplies to 1 |
| `NumberTheory.InvertibleExactly` | masseyomura/keygen.go:50-63 | the exponents that key generation accepts, those with greatest common divisor 1, are exactly those that have an inverse |
| `NumberTheory.Fermat` | masseyomura/encrypt.go:28-36 | Fermat's little theorem, on which decryption rests |
| `MasseyOmura.DecryptEncrypt` | masseyomura/encrypt.go:28-36 | decryption undoes encryption on 1..P-1 and both stay there |
| `MasseyOmura.PeelAnyOrder` | masseyomura/encrypt.go:28-36 | encrypting under any list of generated keys and decrypting in any rearrangement of it gives the message back |
| `MasseyOmura.NeverLeavesUnits` | masseyomura/encrypt.go:28-36 | no number of encryptions or decryptions leaves 1..P-1, so a message never becomes nil |
| `MasseyOmura.Pad` | masseyomura/encrypt.go:44-59 | the buffer loop yields bytes of value 1, one zero, then the message, at the target length |
| `MasseyOmura.UnPad` | masseyomura/encrypt.go:61-69 | the scan yields what follows the first zero byte, and fails when there is none |
| `MasseyOmura.PrepareMsg` | masseyomura/encrypt.go:18-26 | fails on overlong messages and otherwise gives the number of the padded message |
| `MasseyOmura.PrepareExtract` | masseyomura/encrypt.go:18-42 | every message below the maximum size, zero bytes included, survives preparing and extracting |
| `MasseyOmura.PrepareExtractAtMaximum` | masseyomura/encrypt.go:38-69 | at the maximum size what comes back is what follows the first zero after leading zeros, which is always shorter |
| `MasseyOmura.RoundTripExactly` | masseyomura/encrypt.go:8-42 | of the accepted messages exactly those below the maximum size come back |
| `MasseyOmura.AcceptsLossyMessage` | masseyomura/encrypt.go:44-59 | a two-byte message that is accepted and then cannot be extracted |
| `MasseyOmura.PreparedInRange` | masseyomura/encrypt.go:8-26 | a prepared message is below 2^(plen-1), hence below P, and is positive below the maximum size or with a non-zero first byte |
| `MasseyOmura.BitsBytesInverse` | masseyomura/encrypt.go:8-16 | the two size computations are inverse, BitsMaxSize is the least sufficient key length, and a padded message is the longest with fewer bits than the key |
| `MasseyOmura.VerifySysKeyExactly` | masseyomura/keygen.go:29-43 | exactly the primes from 2^(bits-1) up to 2^bits verify |
| `Bytes.FromToNat` | anonbcast/crypto.go:11-15 | bytes to number to bytes drops exactly the leading zeros |
| `Bytes.ToFromNat` | anonbcast/crypto.go:50-52 | number to bytes to number is the identity |
| `Crypto.GenKey` | anonbcast/crypto.go:171-180 | the byte form of a generated key is a valid pair, not nil, and of the first coprime draw; it fails exactly when no draw is coprime |
| `Crypto.MsgEqual` | anonbcast/crypto.go:26-36 | the byte-wise loop decides equality of messages |
| `Crypto.HashEquals` | anonbcast/crypto.go:65-76 | the byte-wise loop decides whether the given hash is the SHA-256 of the bytes E followed by D |
| `Crypto.HashKeyExactly` | anonbcast/crypto.go:58-64 | unless SHA-256 itself collides on them, two keys have the same hash exactly if their bytes E followed by D are the same |
| `Crypto.HashKeyTells` | anonbcast/crypto.go:58-64 | for any two keys there is a hash function under which equal hashes mean exactly equal bytes E followed by D |
| `Crypto.VerifyExactly` | anonbcast/crypto.go:132-135 | the crypto made of a modulus verifies for a message size exactly if the modulus is a prime of the one bit length that belongs to that size |
| `Crypto.NewMsgValue` | anonbcast/crypto.go:44-52 | a message keeps its number, and is nil only for 0 |
| `Crypto.AdapterDecryptEncrypt` | anonbcast/crypto.go:157-165 | decryption undoes encryption through the byte encoding, and the ciphertext is not nil |
| `Rounds.HandleKeepsRep` | anonbcast/statemachine.go:173-390 | every handler, for any operation, keeps participants distinct, arrays of one length, scrambled prefix-closed and flags matched to the phase; a no-op changes nothing; a round is over exactly in Done or Failed |
| `Rounds.ApplyKeepsValid` | anonbcast/statemachine.go:142-171 | every operation keeps the ring of three rounds valid, and reports no update only if nothing changed |
| `Documented.NoOpExactly` | anonbcast/op.go:28-167 | an operation is a no-op exactly for the reasons that its documentation lists, and then changes nothing |
| `Documented.EffectExactly` | anonbcast/op.go:28-167 | otherwise it changes what is documented and nothing else, moves the phase on exactly when the last participant is through, and opens a fresh round exactly when this one is over |
| `Documented.CountIsHowMany` | anonbcast/statemachine.go:239-247 | the count that Prev is compared with is the number of participants with the flag set |
| `Origins.StartEffect` | anonbcast/statemachine.go:194-203 | a start takes effect exactly in Prepare of its round, which it leaves with the crypto it carries and otherwise unchanged |
| `Origins.StoredCrypto` | anonbcast/statemachine.go:194-203 | in every log the crypto stored for a round, current or over, is the one of the only StartOp that took effect there, and none if there was none |
| `Origins.JoinEffect` | anonbcast/statemachine.go:173-192 | a join takes effect exactly for a newcomer in Prepare, who becomes the last participant |
| `Origins.StoredParticipants` | anonbcast/statemachine.go:173-192 | in every log the participants stored for a round, current or over, are exactly the clients of which a JoinOp took effect there |
| `Rounds.CountPrefix` | anonbcast/statemachine.go:278-307 | with prefix-closed flags, a participant has scrambled exactly if its index is below the count |
| `Rounds.CountMonotone` | anonbcast/statemachine.go:239-247 | growing flags grow the count, and an equal count means equal flags |
| `Runs.HandleEvolves` | anonbcast/statemachine.go:173-390 | within a round phases only advance, participants are fixed after prepare, flags only grow, and messages change only with a count |
| `Runs.RunEvolves` | anonbcast/statemachine.go:142-171 | the same over every run of arbitrary operations |
| `Runs.MayPrecedeOrder` | anonbcast/statemachine.go:537-560 | MayPrecede is reflexive, transitive and total |
| `Runs.RunMayPrecede` | anonbcast/statemachine.go:537-560 | every state may precede its successors, and a round is entered fresh and one at a time |
| `Stages.MayPrecedeExactly` | anonbcast/statemachine.go:537-560 | true if and only if some run of the machine passes through the round and phase of the one state and then, or later, through those of the other |
| `Stages.MayPrecedeRejects` | anonbcast/statemachine.go:537-560 | states that precede each other are in the same round and phase, and no operations lead to a state that is rejected |
| `Runs.GuaranteedNoEffectSound` | anonbcast/statemachine.go:413-456 | if it holds, the operation does nothing now and after any further operations, honest or not |
| `Stages.GuaranteedExactly` | anonbcast/statemachine.go:413-456 | no operation of this kind for this round can ever again have an effect if and only if it answers true, or the round was started with nobody in it |
| `Stages.MayHaveEffect` | anonbcast/statemachine.go:413-456 | when it answers false, further operations after which an operation of the same kind and round is accepted |
| `Runs.LiveOrDead` | anonbcast/statemachine.go:249-354 | an operation computed from an earlier state takes effect or is dead |
| `Runs.DeadForever` | anonbcast/statemachine.go:142-390 | a dead operation does nothing in any later state |
| `Runs.NoTemporaryNoOp` | anonbcast/statemachine.go:142-390 | an operation computed from a state takes effect after any further operations, or never again will |
| `Runs.TestAndSet` | anonbcast/statemachine.go:260-347 | a rewriting operation is accepted only if messages and flags are those it was computed from |
| `Runs.RingRefinement` | anonbcast/statemachine.go:375-405 | GetRoundInfo answers exactly for the last three rounds and agrees with an unbounded ledger whose past rounds are Done or Failed and never change |
| `StateMachines.CountFlags` | anonbcast/statemachine.go:278-286 | the counting loop returns the number of set flags |
| `StateMachines.FindParticipant` | anonbcast/statemachine.go:205-212 | the search returns the participant's index, or -1 |
| `StateMachines.NoNilKey` | anonbcast/statemachine.go:367-380 | the loop decides whether every key is revealed |
| `StateMachines.Append` | anonbcast/statemachine.go:180-190 | the slice grows by one element, in new storage |
| `StateMachines.CopySlice` | anonbcast/statemachine.go:479-492 | equal contents in new storage |
| `StateMachines.CopyMessages` | anonbcast/statemachine.go:481-496 | the messages in new storage, with nil messages up to the number of participants |
| `StateMachines.RoundRecord.Init` | anonbcast/statemachine.go:530-535 | the slot becomes a fresh round, with seven slices of its own |
| `StateMachines.RoundRecord.Join` | anonbcast/statemachine.go:173-192 | in place, what the value handler does; all seven slices are new exactly when something changed |
| `StateMachines.RoundRecord.Start` | anonbcast/statemachine.go:194-203 | in place, what the value handler does: exactly in Prepare the phase becomes Submit and the given crypto is stored |
| `StateMachines.RoundRecord.NoNilMessage` | anonbcast/statemachine.go:228-236 | the loop decides whether every message is there |
| `StateMachines.RoundRecord.Message` | anonbcast/statemachine.go:214-237 | what the value handler does, by writing into the stored message and hash slices and nothing else |
| `StateMachines.RoundRecord.Encrypted` | anonbcast/statemachine.go:249-276 | what the value handler does, by writing one flag in place; an accepted operation's message slice is stored by reference |
| `StateMachines.RoundRecord.Scrambled` | anonbcast/statemachine.go:288-315 | what the value handler does, by writing one flag in place; an accepted operation's message slice is stored by reference |
| `StateMachines.RoundRecord.Decrypted` | anonbcast/statemachine.go:327-354 | what the value handler does, by writing one flag in place; an accepted operation's message slice is stored by reference |
| `StateMachines.RoundRecord.RevealKey` | anonbcast/statemachine.go:356-380 | what the value handler does, by writing one key in place, including when the round is over |
| `StateMachines.RoundRecord.DeepCopy` | anonbcast/statemachine.go:476-507 | a new record whose seven slices are all new, equal to the original but for messages padded to the number of participants |
| `StateMachines.StateMachine.constructor` | anonbcast/statemachine.go:518-535 | a new state machine is valid and at its initial value, and all its slices are its own |
| `StateMachines.StateMachine.Apply` | anonbcast/statemachine.go:142-390 | the mutable state machine refines the one on values, for operations whose slices it does not own, and writes only its records and the slices it owns |
| `StateMachines.StateMachine.DeepCopy` | anonbcast/statemachine.go:458-507 | a copy of equal value that shares no record and none of the 21 slices |
| `StateMachines.ApplyAll` | anonbcast/statemachine.go:142-390 | any sequence of operations leaves a machine with no storage in common unchanged, and the operations too, though their slices are stored by reference |
| `StateMachines.ApplyAfterSnapshot` | anonbcast/statemachine.go:458-507 | a snapshot taken with DeepCopy keeps its value whatever is then applied to the original, which runs as the values do |
| `Layers.WrapMore` | anonbcast/crypto.go:157-160 | encrypting a layered message adds one layer, whatever the order |
| `Layers.WrapLess` | anonbcast/crypto.go:162-165 | decrypting takes that layer off wherever it sits |
| `Layers.ScrambleStep` | anonbcast/client.go:426-446 | a scramble of shuffled layered messages gives shuffled messages with two more layers |
| `Layers.DecryptStep` | anonbcast/client.go:449-472 | a decrypt takes the scramble and the encrypt layer off every message |
| `Layers.PeelStep` | anonbcast/client.go:217-240 | peeling all reveal keys leaves the plaintexts, rearranged |
| `Clients.FindMe` | anonbcast/client.go:528-533 | the search that runs to the end finds the one index of the client |
| `Clients.EncryptMessages` | anonbcast/client.go:407-414 | every message but one's own is encrypted, in order |
| `Clients.EncryptBoth` | anonbcast/client.go:428-434 | every message gets the scramble key, then the reveal key |
| `Shuffles.Shuffle` | anonbcast/client.go:435-438 | the swaps in place yield the arrangement that the draws determine |
| `Shuffles.EveryArrangement` | anonbcast/client.go:435-438 | every arrangement of the messages is reached by some draws |
| `Shuffles.OneWayOnly` | anonbcast/client.go:435-438 | among distinct messages every arrangement is reached by only one choice of draws |
| `Clients.ScrambleMessages` | anonbcast/client.go:426-438 | the result is the drawn arrangement of the doubly encrypted messages |
| `Clients.DecryptMessages` | anonbcast/client.go:457-463 | every message loses the scramble key, then the encrypt key, in order |
| `Clients.Client.constructor` | anonbcast/client.go:494-507 | a client starts with no keys and all guards open |
| `Clients.Client.Submit` | anonbcast/client.go:365-396 | a missing message is sent under the encrypt key with the hash of the reveal key; under a crypto that verifies it is the header with the text, or another header alone if the text is longer than the message size |
| `ClientSteps.TextSentExactly` | anonbcast/client.go:378-387 | under a crypto that verifies, header and text are sent exactly if the text has at most the message size, and otherwise a header with an empty body; both assertions of submit |
| `ClientSteps.HeaderExactly` | anonbcast/client.go:329-358 | exactly the headers that can be made are valid, and different random bytes make different headers |
| `Clients.Client.SubmitOnce` | anonbcast/client.go:580-583 | at most one message in a round, and none if it is already there |
| `Clients.Client.RefreshKeys` | anonbcast/client.go:566-579 | keys change exactly in a new round with a crypto that verifies |
| `Clients.Client.SubmitWithoutCrypto` | anonbcast/client.go:566-584 | without a crypto the client panics exactly when it would verify it or prepare a message |
| `Clients.Client.UpdateInSubmit` | anonbcast/client.go:560-584 | the submit case does what the value function says: the abort of a bad crypto, and the panic on a missing one |
| `Clients.Client.UpdateInEncrypt` | anonbcast/client.go:585-590 | the encrypt case does what the value function says, panics exactly when another message needs a missing crypto, and changes no variable |
| `Clients.Client.UpdateInScramble` | anonbcast/client.go:591-606 | the scramble case acts once a round and only in turn, with some rearrangement; a missing crypto panics when there are messages |
| `Clients.Client.UpdateInDecrypt` | anonbcast/client.go:607-612 | the decrypt case does what the value function says, panics on a missing crypto when there are messages, and changes no variable |
| `Clients.Client.UpdateInReveal` | anonbcast/client.go:613-630 | the reveal case takes one snapshot of hashes and messages per round before it reveals |
| `Clients.Client.HandleUpdate` | anonbcast/client.go:517-633 | for every draw of the random source one update acts, or panics, as the value function with an admissible shuffle; in Prepare it joins exactly if active, not leaving and not in the round |
| `Turns.SendsExactly` | anonbcast/client.go:535-633 | a client sends an operation exactly if it is active, not leaving in Prepare, has its guard left, and some operation of its own would be accepted now and be new; it then sends one such; under a crypto that does not verify it sends an abort instead |
| `Turns.ContributesExactly` | anonbcast/client.go:535-633 | some operation of the client would be accepted and new exactly if its own join, message, flag, turn or key is still missing in the current phase |
| `Turns.JoinsExactly` | anonbcast/client.go:555-559 | on a Prepare update the JoinOp of the round is sent exactly by an active client that is not leaving and not in the round; nothing else is sent |
| `Turns.BystanderKeeps` | anonbcast/client.go:553-633 | an inactive client, and an outsider once the round is started, sends nothing, never panics and keeps all variables but the last dispatched round |
| `Beginnings.RunSendsExactly` | anonbcast/client.go:535-633 | in every run, at every update from any state it has not moved past, the client sends exactly when that is so |
| `Beginnings.RunJoins` | anonbcast/client.go:313-320 | in every run such an update issues the JoinOp and no other update in Prepare issues anything; wherever it is committed with the round still in Prepare, the client takes part |
| `HonestSteps.HandleKeepsGood` | anonbcast/statemachine.go:214-380 | an operation with honest content keeps the layer invariant and checkRep of the round |
| `Protocol.ContentTransfers` | anonbcast/statemachine.go:249-354 | a stale operation that is accepted has the content that its client would compute now |
| `Protocol.UpdateKeepsInv` | anonbcast/client.go:366-484 | a client update from any state it has not moved past keeps the system invariant |
| `Protocol.CommitKeepsInv` | anonbcast/statemachine.go:142-171 | committing any computed operation at any time keeps the system invariant |
| `Protocol.RunKeepsInv` | anonbcast/client.go:398-472 | in every run every stored round carries the layers of its phase: own key and encrypted ones; all encrypt keys and those of the scrambled; all reveal keys and those of the not yet decrypted |
| `EndToEnd.RunChecksRep` | anonbcast/statemachine.go:103-137 | in every run every stored round satisfies all of checkRep |
| `EndToEnd.RunNeverPanics` | anonbcast/client.go:560-612 | in every run no update makes a client call into a missing crypto |
| `EndToEnd.DoneRoundDelivers` | anonbcast/client.go:217-240 | a good round that is done opens to the submitted texts, rearranged |
| `EndToEnd.DeliveredExactly` | anonbcast/client.go:378-387 | a text with header is delivered unchanged exactly if it is below the maximum size |
| `EndToEnd.RunDelivers` | anonbcast/client.go:217-240 | in every run a done round opens to a permutation of the submitted texts, and those are the headers and texts that the users chose |
| `Sayings.BodiesAreWords` | anonbcast/client.go:241-264 | the non-empty bodies of the submitted texts are, in order, the non-empty texts within the message size that the users chose |
| `Sayings.DeliverableExactly` | anonbcast/client.go:241-294 | the submitted texts are short with distinct headers exactly if no chosen text has the full size and no two spoken ones got the same random bytes |
| `Reports.OpenedOnlyIfDeliverable` | anonbcast/client.go:217-294 | if all opened texts pass the checks and their bodies are the submitted ones, then every text was below the maximum size and the headers were distinct |
| `Reports.RunReports` | anonbcast/client.go:139-310 | in every run a participant that remembers a done round reports success with exactly the non-empty texts the users chose if and only if none has the full size and their random bytes differ |
| `ClientMemory.RunRemembering` | anonbcast/client.go:591-629 | in every run the marks of every client stand for states it has seen, its snapshots are of those states, what it has scrambled and revealed is within its marks, and its scramble of a round is unique |
| `Reports.RunRemembers` | anonbcast/client.go:176 | in every run a participant of a done round that has not moved past it holds the reveal snapshot of that round and remembers it right, whatever updates it missed |
| `Reports.ParticipantReports` | anonbcast/client.go:138-310 | in every run a participant of a done round that has not moved past it would report exactly the non-empty texts the users chose, under the same condition on their choices and no other |
| `Reports.RunLostText` | anonbcast/client.go:217-240 | in every run, if a user chose a text of the full size and neither it nor its header has a zero byte, every participant that remembers the round panics instead of reporting it |
| `Dispatches.DispatchReports` | anonbcast/client.go:536-552 | at the very update where a participant of the run dispatches a done round, its report is that one, and a panic if a text was lost |
| `Dispatches.FailedReports` | anonbcast/client.go:158-174 | in every run a participant that dispatches a failed round reports a failure without messages, with the warning exactly if it has ever sent its reveal key for that round |
| `Dispatches.RunToldIfJoined` | anonbcast/client.go:150-156 | in every run, whatever the client remembers, a dispatch reports something exactly if a JoinOp of the client took effect in that round |
| `RoundResults.PeelChecked` | anonbcast/client.go:219-238 | all keys come off if every hash matches; the first mismatch or a missing hash is told apart |
| `RoundResults.CompareMessages` | anonbcast/client.go:197-215 | decides whether the messages are those of the snapshot, and when the snapshot is too short |
| `RoundResults.VerifyHeaders` | anonbcast/client.go:241-264 | accepts exactly well-headed texts and keeps the non-empty ones in order; a short text before any bad header panics |
| `RoundResults.AnyDuplicate` | anonbcast/client.go:266-294 | the nested loops decide whether two headers are equal |
| `RoundResults.OpenAll` | anonbcast/client.go:217-240 | the nested loops open every message, or stop at a wrong key; with no messages no key is checked |
| `RoundResults.SendRoundResult` | anonbcast/client.go:138-310 | the whole cascade returns the verdict; nothing is sent exactly to an outsider; every report is of the round before and a success only of a done round |
| `RoundResults.SucceededExactly` | anonbcast/client.go:176-310 | a participant of a done round reports success exactly if count, snapshot, key hashes, headers and their distinctness are right, and then the non-empty bodies in order; a failure carries no messages |
| `RoundResults.ToldExactly` | anonbcast/client.go:150-156 | for every round and memory nothing is sent if and only if the client is not a participant |
| `RoundResults.DoneVerdictReal` | anonbcast/client.go:176-294 | the check that a report of malice names has really failed, and every panic has its reason in the round or the memory |
| `RoundResults.SwappedKeyNeverSucceeds` | anonbcast/client.go:219-238 | a done round with a revealed key of other bytes than the committed one is never reported as succeeded, unless SHA-256 collides on the two |
| `EliminationQueues.CompareIsKeyOrder` | anonbcast/eliminationqueue.go:96-172 | compare is the lexicographic order of (round, operation index, Prev) and never incomparable |
| `EliminationQueues.KeyOrderTotal` | anonbcast/eliminationqueue.go:123-172 | that order is total, asymmetric and transitive |
| `EliminationQueues.EliminationQueue.constructor` | anonbcast/eliminationqueue.go:25-30 | a new queue is empty and has finished nothing |
| `EliminationQueues.EliminationQueue.AddOp` | anonbcast/eliminationqueue.go:32-57 | the new contents after an add: kept, replaced or ignored |
| `EliminationQueues.EliminationQueue.Get` | anonbcast/eliminationqueue.go:59-69 | the pending operation, and nothing changes |
| `EliminationQueues.EliminationQueue.FinishOp` | anonbcast/eliminationqueue.go:71-84 | the new contents after a finish: removed only if it is still pending, and remembered |
| `EliminationQueues.RunningMaximum` | anonbcast/eliminationqueue.go:25-84 | with one consumer and any interleaved adds at most one operation is held, it or the last finished one is the greatest ever added, finished keys strictly increase, and of operations with equal keys the first is held and finished |
| `Elimination.OlderIsDead` | anonbcast/eliminationqueue.go:123-172 | when a client computes a newer operation, all its older ones are dead in that state |
| `Elimination.EliminationHarmless` | anonbcast/eliminationqueue.go:32-56 | dropping an older operation for a newer non-abort one of the same client changes no run |
| `Elimination.AbortDropsLiveOp` | anonbcast/eliminationqueue.go:32-56 | a message that would be accepted is dropped for the abort of a client that timed out waiting for it, and that changes the run |
| `Elimination.DropHarmlessExactly` | anonbcast/statemachine.go:142-390 | dropping a computed operation changes no continuation, and it has no effect ever after, exactly if it is dead by its round, phase, count or flag |
| `Elimination.AbortDropExactly` | anonbcast/eliminationqueue.go:32-56 | in every run an abort added to a queue puts a pending operation out of it, and that makes no difference to any continuation from any log position on exactly if the operation is dead there |
| `Elimination.AbortedIsDead` | anonbcast/statemachine.go:382-390 | once the abort is committed, what it replaced is dead |
| `Elimination.EqualMeansSame` | anonbcast/eliminationqueue.go:38-50 | in every run two computed operations of a client with equal keys, scrambles included and starts excepted, are the same operation |
| `Elimination.SecondStartIsDead` | anonbcast/statemachine.go:194-203 | of two starts of a round the second can never have an effect once the first was accepted |
| `Elimination.QueueLosesNothing` | anonbcast/eliminationqueue.go:25-84 | in every run and for every interleaving, each operation ever added to a client's queue is its newest one, or without effect from the state that one was computed from, or another start of the same round |
| `Elimination.RunNoTemporaryNoOp` | anonbcast/client.go:668-679 | in every run a computed operation takes effect at a later log position or never again |
| `Deeds.ActedBy` | anonbcast/statemachine.go:173-380 | a participant that has joined, submitted, scrambled or revealed did so by an operation of its own in the log of this round |
| `Progress.StartOutstanding` | anonbcast/statemachine.go:194-203 | a round starts with 5n pieces of outstanding work |
| `Progress.OutstandingStep` | anonbcast/statemachine.go:214-380 | a fresh operation with a message or key takes off exactly one piece; only overwriting with a nil message or key adds one |
| `Progress.NothingOutstanding` | anonbcast/statemachine.go:356-380 | no work is left exactly when the round is done |
| `Progress.CommitOutstanding` | anonbcast/statemachine.go:214-380 | in every run committing a computed operation obeys the measure, and ends the round exactly at 0 |
| `Progress.SomeoneCanMove` | anonbcast/client.go:560-630 | the participant whose turn it is, with its guards open, sends an operation that is accepted and fresh |
| `NoDeadlock.EmptyRoundStarts` | anonbcast/statemachine.go:194-203 | a start is accepted in a round that nobody has joined |
| `NoDeadlock.StuckExactly` | anonbcast/statemachine.go:214-390 | in every started round of any valid state, only an abort has an effect if and only if there are no participants |
| `NoDeadlock.RunNeverEmpty` | anonbcast/client.go:877-899 | no round of a run is started without participants |
| `NoDeadlock.RunLosesNothing` | anonbcast/client.go:580-630 | in every run a used-up guard stands for a message, scramble or reveal that was sent, and everything in the log was sent, computed from a state before it |
| `NoDeadlock.NeverStuck` | anonbcast/client.go:535-633 | in every run a started round has an operation to commit that takes work off, or the update step of its next participant is enabled and sends one, or gives up a bad crypto |
| `Completion.RunFinishes` | anonbcast/client.go:535-633 | every run that ends in a started round, with a crypto that verifies if messages are still missing, extends to a run in which that round is done with the same participants and crypto |
| `Beginnings.RunFinishesFromPrepare` | anonbcast/client.go:535-633 | every run that ends in Prepare extends, for any client and any crypto that verifies, to a run in which that client has joined the round and the round is done under that crypto |
| `Servers.RespChannels.constructor` | anonbcast/respchannels.go:16-18 | no one waits |
| `Servers.RespChannels.Create` | anonbcast/respchannels.go:20-28 | a new channel under the given pair, all others untouched |
| `Servers.RespChannels.Get` | anonbcast/respchannels.go:30-36 | the channel of the pair, if there is one |
| `Servers.RespChannels.Close` | anonbcast/respchannels.go:38-45 | closes and removes that channel only |
| `Servers.RespChannels.Clear` | anonbcast/respchannels.go:47-54 | closes every registered channel, no other, and forgets them all |
| `Servers.Server.SubmitOp` | anonbcast/server.go:100-145 | an immediate OK exactly for a guaranteed no-op, wrong leader exactly if not accepted otherwise, and else a registered waiter |
| `Servers.Server.ApplyCommand` | anonbcast/server.go:147-172 | applies one committed operation and wakes exactly the waiter of its term and index, which is then answered for its own operation |
| `Servers.Server.LoseLeadership` | anonbcast/server.go:173-179 | closes all waiters and answers none of them OK |
| `Servers.OkNeedsNoRetry` | anonbcast/server.go:100-188 | an operation answered OK took effect in the log or never will |
| `Servers.RunOkNeedsNoRetry` | anonbcast/server.go:100-188 | in every run, for a server that has applied any prefix of the log, an operation answered OK took effect where it was applied or never will |
| `ClientLoops.AllDispatched` | anonbcast/client.go:536-552 | wherever the client subscribed: once it has seen a round begin, the results of all rounds before the current one are dispatched after every update, and nothing before that |
| `ClientLoops.DispatchedOnce` | anonbcast/client.go:517-552 | wherever the client subscribed: consecutive updates may precede one another, a round's result is dispatched exactly by the update that enters the next one, and exactly when that is in order |
| `ClientLoops.FirstDispatchInOrderExactly` | anonbcast/client.go:536-551 | for a client that subscribes anywhere, the first dispatch is in order exactly if it started in round 0 or at the beginning of round 1 |
| `ClientLoops.LateStartOutOfOrder` | anonbcast/client.go:536-551 | a client that subscribes after two aborted rounds dispatches at once, and not in order |
| `ClientLoops.OncePerRound` | anonbcast/client.go:566-606 | in a stream of any readable updates, whoever sends them, two that generate keys, or send a message, or send a scramble, are in different rounds, the later one in the later |
| `ResultOrderers.ResultOrderer.constructor` | localconfessions/confessions.go:37-39 | an empty buffer |
| `ResultOrderers.ResultOrderer.Grow` | localconfessions/confessions.go:42-44 | the buffer reaches the length asked for, with placeholders |
| `ResultOrderers.ResultOrderer.PassOn` | localconfessions/confessions.go:47-50 | passes on the results up to the next gap |
| `ResultOrderers.ResultOrderer.Receive` | localconfessions/confessions.go:40-51 | one arrival changes buffer and output as the value function says |
| `ResultOrderers.PassedOnInOrder` | localconfessions/confessions.go:37-52 | for every order of arrival, repeated rounds included, the output is one result for each of the rounds 0, 1, 2, ... up to the first missing round |
| `ResultOrderers.AfterInvariant` | localconfessions/confessions.go:37-52 | every cell of the buffer holds the latest arrival for its round, or nothing if none has arrived |
| `ResultOrderers.OrderIrrelevant` | localconfessions/confessions.go:37-52 | with one result per round all orders of arrival give the same output |

## Left out

- Raft: it is one agreed log; a (term, index) names one command. Elections, persistence and snapshots are not modelled.
- Configuration changes (anonbcast/clientconfigurationchange.go, anonbcast/serverconfigurationchange.go): being active or
  leaving is an arbitrary choice at every update, and a configuration update may make a client join at any time.
- Timers, sleeps, goroutine scheduling, `aborter`, `Kill`: an abort may be sent and committed at any time, and an operation
  computed by a goroutine may be committed at any time after its update.
- anonbcast/laststatemachine.go, labrpc, labgob, network, mockraft, elgamal, the confessions user interface: not modelled.
- `GenSysKey` and `ProbablyPrime`: primality is a property of P, and the check is taken to decide it.
- SHA-256 is any function to 32-byte strings, identifiers are opaque, random draws are parameters. That no two keys collide
  is a hypothesis about the two keys of the statement, since no function to 32 bytes is injective.
- Anonymity and secrecy, and the probability that random headers collide: distinct headers are a hypothesis where needed.
- Debug assertions: the ones that are proved hold as lemmas; the others have no effect in the model.
- StateMachines.Append: does not model growth in place within spare capacity, because two slices over one backing array
  would be needed to tell the difference; append makes a new slice.
- StateMachines.RoundRecord.Join: grows its seven slices with that append.
- `StateMachines`: the bytes inside keys, hashes and messages are values.
- `Clients`: the operation handed to a goroutine is computed at once, since the goroutine gets copies of the keys; what the
  variables hold after a panic is not modelled.
- MessageSize is a setting of each client; in the model all clients share one. Clients with different settings never both
  accept the crypto of a round, since its key length must match the setting exactly.
- Elimination.EqualMeansSame: does not cover starts, because two starts of a client may carry different cryptos;
  `Elimination.SecondStartIsDead` says what becomes of the second.
- Completion.RunFinishes: says that the round can be finished, not that it will be, because timers and scheduling are not
  modelled.
