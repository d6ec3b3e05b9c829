# A verified model of the relationship example

The repository keeps private communication channels ("relationships") on the Bitcoin chain. Each party
derives its keys along a hash chain, mirrors the chain positions of all other members, and pays for its
messages from a small wallet that listens to the network. This project models that system in Dafny and
proves what its two coupled halves are for.

**The key ratchet** (`internal/relationships`). Sending moves one's own chain, and in direct mode every
member's; receiving moves a chain only when the key seen is the one expected next. The runs of
`Protocol.dfy` let sends and deliveries interleave freely, each sender's messages arriving in order.

* `Direct.Convergence`: whatever the interleaving, once nothing is on its way the two sides of a direct
  relationship hold identical positions, those of the side that was further along. The invariant behind
  it is `Direct.Inv`: whatever position one side is ahead by is still on its way to the other.
* `Indirect.MirrorsAgree` and `Indirect.DeliveredKeyDecrypts`: with any number of members, a mirror is
  behind by exactly the messages on their way, and each recipient finds exactly the key the sender
  encrypted with.
* `Initiate.StartsDirect` and `Initiate.StartsIndirect`: the relationships that the initiator stores and
  the other participants rebuild from the initiate transaction satisfy these invariants at the start.

**The wallet** (`internal/wallet`, driven by `internal/node`). Address lists grow by a gap scan; stored
outputs carry three independent flags that transactions and their reversals change.

* `LedgerRun.RunRefinesIff`: after every prefix of a run the stored outputs are those of the plain history
  of handled, finalized and reverted transactions if and only if every event respected an explicit,
  checkable condition; `LedgerRun.OrderlyRunRefines` gives one on the list of events alone that suffices.
* `FundingRuns.SpentOnceIff`: over every way a plan of funding requests for any relationship keys,
  lifecycle events and restarts can go, no outpoint is an input of two transactions the wallet broadcast, if
  and only if a condition on ledger and request, judged before each call, is never met.
  `RebuiltPayments.RebuiltPayment` is a plan that meets it.
* `FeedOrder.ProcessCommutes`: it does not matter whether feed or wallet records a transaction first.

**The node as a whole** (`NodeRun.dfy`). Wallet and relationships move together: transactions fed, confirmed,
reversed and their messages processed, addresses given out, restarts, and every initiation, accept and
message, successful or not. From a new wallet, over every such run:

* `NodeRuns.NeverSpentTwice`: no outpoint is spent by two broadcasts. The callers of funding never meet the
  condition above, because a reserved entry of a derived key lies behind its relationship's chain.
* `NodeRuns.InitiationKeysUnique`: no two initiated relationships share a key, restarts or not.
* `NodeRuns.ChainsStayRight` and `NodeRuns.GapsStayExact`: every relationship is on its chain with its keys
  registered, every stored output can be signed for, and every address list has its exact gap.

The methods of `NodeOperation.dfy` are the repository's operations on the stored objects; each is proved to
lead to the next state of such a run, a restart included.

**Storage.** `RelationshipStore.StoreRoundTripIff` and `WalletRestore.Restart` prove the round trips of
the saved relationships and of the saved wallet for every order in which its maps are written. What a
wallet must satisfy to be written is stated on the wallet itself, and `WalletRestore.RestartNew` shows it
of a new one.

## How the model is built

Hashes, keys and transaction ids are free terms (`Bitcoin.dfy`): a hash of a different value is a
different hash, and the public key of a derived private key is the derived public key by definition. Each
stateful part is described twice. A module of functions on values says what an operation does, and the
theorems are about those functions. Classes with the repository's own fields do it by changing objects in
place, with the repository's loops, and every method is proved to end in the state the function gives.

| files | repository | contents |
|---|---|---|
| `AddressSpec`, `AddressIndex` | `internal/wallet/addresses.go`, `keys.go` | address lists, gap, address map, derived keys |
| `LedgerSpec`, `Ledger`, `Wallet`, `Signing` | `internal/wallet/utxos.go` | stored outputs, their flags, signing keys |
| `LedgerRun`, `FeedOrder`, `LateOutputs`, `UniqueKeys` | `internal/wallet`, `internal/node` | whole runs of the wallet |
| `FundingSpec`, `Funding`, `FundingRun`, `RebuiltPayment` | `internal/wallet/funding.go` | the three funding calls, and runs of them |
| `Ratchet`, `RatchetLaws`, `Relationships` | `internal/relationships/relationships.go`, `relationship.go`, `member.go` | chains, matching, key lookup |
| `Protocol`, `Direct`, `Indirect` | `internal/relationships` | runs of several participants |
| `Messages`, `Sending`, `Decrypting` | `message.go`, `accept.go`, `relationships.go` | messages sent, processed, decrypted |
| `Initiate`, `Initiating`, `KeyGrowth` | `internal/relationships/initiate.go` | starting and joining a relationship, and what messages do to keys and chains |
| `NodeRun`, `NodeOperation` | `internal/node/command.go`, `node.go`, `listener.go` | whole runs of a node, and its operations as their steps |
| `Node` | `internal/node/listener.go`, `node.go`, `messages.go` | transaction filter and lifecycle |
| `Codec`, `RelationshipStore`, `WalletStore`, `WalletRestore` | `models.go`, `wallet.go` | stored forms |

Each command, delivery and lifecycle event is one atomic step. What the transaction library and the
network decide (which offered inputs are taken, how a call ends, what change is added, whether a broadcast
is accepted or fed back) is a parameter, so every theorem holds whatever they decide. Methods that make up
a run step carry the run state as a ghost parameter and say which events they amounted to.

## Where the code does not do what one would expect

The model follows the code; each of these names the lemma or the contract that states it.

* Processing a transaction twice can differ from processing it once: marking one output can extend a list
  so that an earlier output becomes owned (`FeedOrder.ProcessIdempotentIff`, on exact gaps
  `LateOutputs.IdempotentByPositions`, with the concrete transaction of `FeedOrder.ProcessNotIdempotent`).
* A member's key that is not the expected one yields the encryption key added twice
  (`RatchetLaws.MemberEncryptionKeyIff`).
* Addresses reloaded from disk have lost their public key, so a direct message to one is reported as
  belonging to no relationship (`RatchetLaws.ReceiveDirectIff`). For this reason the protocol runs
  contain no restart.
* An initiate transaction that names one of our derived keys gives a relationship whose next key cannot
  be derived again (`Initiate.RebuiltChainIff`).
* An initiator that rebuilds its relationship from the chain is no longer accepted
  (`Initiate.RecoveredInitiator`).
* Seeds and flags of 65536 bytes or more do not survive storage (`RelationshipStore.RelationshipRoundTripIff`).
* A reversal never unreserves (`LedgerRun.ReservedStays`), so `funding.go` alone, asked for a key twice, can
  build a payment again that was recorded, spent and reversed, and spend its output twice
  (`RebuiltPayments.RebuiltPayment`; exactly when: `FundingRuns.CallSafeIff`). The node never asks in such a
  way (`NodeRuns.CallersNeverRebuild`). A reverted transaction is never applied again (`LedgerRun.Step`).
* Duplicates of an initiate message are recognised by transaction id only, so two initiations to one receiving
  key store two relationships under it. Direct messages of the second are put down to the first, and the
  second never moves (`Initiate.SecondIsShadowed`, `RatchetLaws.ReceiveDirectIff`); a direct relationship
  starts its protocol exactly when its keys are new (`Initiate.StartsDirectIff`). Indirect relationships are
  found by their flag and may share keys (`Initiate.StartsIndirectIff`).
* An initiate message that takes a derived key, or a sender entry without its public key, for ours
  registers a key under what it does not derive from (`KeyGrowth.InitiateCoherentIff`).
* A script that cannot be parsed stops the filter before it sees a later payment (`Nodes.UnreadableHides`).
* An accept or private message with several senders moves the chains before it is refused
  (`Messages.ProcessAcceptRelationship`).
* A message from a key that is not the expected one is put down to member 0 (`RatchetLaws.ReceiveIndirect`).
* The comment on an empty receiver list (`relationships.go:185`) speaks of the first input; the code takes the
  first output, and so does `Ratchet.MatchTx`.

## Model

| member | source | states |
|---|---|---|
| Bitcoin.ChainInjective | internal/relationships/relationship.go:17-34 | Two positions of one chain hold the same hash only when they are the same position, so derived keys never repeat. |
| AddressSpec.UsedBound | internal/wallet/addresses.go:134-149 | The bound is one past the last used address: what precedes it is used, nothing from it on is. |
| AddressSpec.ScanList | internal/wallet/addresses.go:129-203 | The scan leaves a list that already has its gap alone and otherwise extends it, by fresh addresses only, to last used plus gap. |
| AddressSpec.MarkListedLength | internal/wallet/addresses.go:107-127 | How long a list is after one of its addresses is marked, from the position of that address alone. |
| AddressSpec.MarkKeepsExactGap | internal/wallet/addresses.go:107-203 | After every mark, listed or derived, each list is exactly one gap longer than its last used address; the trigger fires exactly when the marked index lies past the last used one. |
| AddressSpec.PreparedExactGap | internal/wallet/wallet.go:84-110 | A prepared new wallet has exact gaps. |
| AddressSpec.GiveKeepsExactGap | internal/wallet/addresses.go:34-46 | Giving an address out moves no gap. |
| AddressSpec.MarkExtends | internal/wallet/addresses.go:107-127 | Marking takes nothing from the index, leaves the address marked and registers no key. |
| AddressSpec.LookupExtends | internal/wallet/addresses.go:64-105 | An address found once is found as the same entry, with the same key, however the index grows. |
| AddressSpec.OwnedKeyIsFound | internal/wallet/addresses.go:64-105 | The key hash form and the key form of an owned key lead to that key's own entry: always in the stored form, and in the other exactly while the entry holds its public key. |
| AddressSpec.FirstFree | internal/wallet/addresses.go:38-43 | The first address neither used nor given, or none when there is none. |
| AddressIndexes.AddressIndex.constructor | internal/wallet/wallet.go:84-110 | Preparing a new wallet gives every list its gap, with every entry shared between list and map and every hash monitored. |
| AddressIndexes.AddressIndex.GetAddress | internal/wallet/addresses.go:49-61 | The entry object at a type and index, or none exactly when there is none. |
| AddressIndexes.AddressIndex.FindAddress | internal/wallet/addresses.go:64-105 | The object found through the map is the entry that owns the key the address pays; nothing is found exactly when no entry owns it in a form it answers to; an address without template is an error. |
| AddressIndexes.AddressIndex.CountUnused | internal/wallet/addresses.go:136-149 | The backward count reaches the gap exactly when the list has its gap, and otherwise is the exact length of the unused tail. |
| AddressIndexes.AddressIndex.ForwardScan | internal/wallet/addresses.go:129-203 | The count and append loops have the effect of the scan on values and lose no entry of the map. |
| AddressIndexes.AddressIndex.AppendAddress | internal/wallet/addresses.go:157-200 | One derived address is appended to its list, filed in the map as the same object and monitored. |
| AddressIndexes.AddressIndex.MarkAddress | internal/wallet/addresses.go:107-127 | Marking an entry object has the effect of marking its entry, scan included. |
| AddressIndexes.AddressIndex.AddIndependentKey | internal/wallet/keys.go:60-105 | The key is registered with its type, index and hash under a fresh unused entry, replacing an earlier one for the same key, and every other entry stays. |
| AddressIndexes.AddressIndex.GetUnusedAddress | internal/wallet/addresses.go:34-46 | The first free address is given out and marked given; without one nothing changes. |
| AddressIndexes.AddressIndex.GetUnusedRawAddress | internal/wallet/addresses.go:15-31 | The same for the address itself, in the stored form of its type; a type out of range is an error. |
| AddressIndexes.AddressIndex.GetUnusedKey | internal/wallet/keys.go:30-43 | The private key returned is that of the first free address, which is then given. |
| AddressIndexes.AddressIndex.AreHashesMonitored | internal/wallet/wallet.go:178-188 | True exactly when one of the hashes is monitored, with the address monitored for the first such hash. |
| AddressIndexes.AddressIndex.RestoreListed | internal/wallet/wallet.go:315-336 | A stored list entry comes back at the end of its list, shared with the map, without its public key and not given. |
| AddressIndexes.AddressIndex.RestoreDerived | internal/wallet/wallet.go:342-355 | A stored derived entry comes back under its key without its public key and not given. |
| AddressIndexes.EntryAnswers | internal/wallet/addresses.go:79-101 | The three comparisons of a filed candidate succeed exactly when the candidate's key is the one the address pays, in a form it answers to. |
| LedgerSpec.SpendInputsAt | internal/wallet/utxos.go:240-283 | The input loop deletes (feed) or reserves (own transaction) exactly the stored outpoints that the transaction spends and changes no other entry. |
| LedgerSpec.UnspendInputsAt | internal/wallet/utxos.go:372-415 | The input loop of a reversal undeletes, or unreserves, exactly the stored outpoints that the transaction spends. |
| LedgerSpec.FinalizeOutputsAt | internal/wallet/utxos.go:334-368 | Exactly the stored entries of owned, positive outputs of the transaction stop being pending. |
| LedgerSpec.DropOutputsAt | internal/wallet/utxos.go:417-446 | Exactly the stored entries of owned, positive outputs of a reverted transaction are deleted. |
| LedgerSpec.RecordOutputsAt | internal/wallet/utxos.go:285-329 | Recording adds exactly the outputs owned when the loop reaches them that were not stored yet, as pending entries, and changes no stored entry, not even a deleted one. |
| LedgerSpec.IndexAtExtends | internal/wallet/utxos.go:285-329 | The index only grows from one turn of the output loop to the next and registers no key. |
| Ledgers.Ledger.FindUTXO | internal/wallet/utxos.go:14-30 | The search of a bucket by output index finds the entry of the outpoint, and nothing exactly when it is not stored. |
| Ledgers.Ledger.CreateUTXO | internal/wallet/utxos.go:122-141 | A new outpoint is filed in its bucket; an existing entry wins. |
| Ledgers.Ledger.FinalizeUTXO | internal/wallet/utxos.go:143-160 | Clears the pending flag of that entry and of no other. |
| Ledgers.Ledger.DeleteUTXO | internal/wallet/utxos.go:162-179 | Sets the deleted flag of that entry and of no other. |
| Ledgers.Ledger.UndeleteUTXO | internal/wallet/utxos.go:181-198 | Clears the deleted flag of that entry and of no other. |
| Ledgers.Ledger.ReserveUTXO | internal/wallet/utxos.go:200-217 | Sets the reserved flag of that entry and of no other. |
| Ledgers.Ledger.UnreserveUTXO | internal/wallet/utxos.go:219-236 | Clears the reserved flag of that entry and of no other. |
| Ledgers.Ledger.Select | internal/wallet/utxos.go:32-85 | The nested loops return exactly the selected entries, each once, whatever order the map gives the buckets in. |
| Ledgers.Ledger.GetKeyUTXOs | internal/wallet/utxos.go:32-47 | All entries of an underived key that are neither pending, reserved nor deleted, each once, and no others. |
| Ledgers.Ledger.GetKeyHashUTXOs | internal/wallet/utxos.go:49-65 | The same for the key derived with a hash. |
| Ledgers.Ledger.GetBitcoinUTXOs | internal/wallet/utxos.go:67-85 | The same for all external and internal keys. |
| Ledgers.Ledger.GetInputKeys | internal/wallet/utxos.go:87-120 | One signing key per input, in order, each for the entry that input spends, or the error of the first input not stored, told apart by whether its bucket exists. |
| Ledgers.Ledger.KeysInBucket | internal/wallet/utxos.go:98-113 | The inner loop, which has no break, adds exactly one key for a stored outpoint and none otherwise. |
| Ledgers.FileEntry | internal/wallet/utxos.go:122-141 | Filing a new outpoint keeps buckets non-empty, named by their own transaction and free of duplicate indexes. |
| Signing.AddKeyCoherentIff | internal/wallet/keys.go:60-105 | Registering a key keeps the derived keys right if and only if it derives from the list key and hash it is filed under. |
| Signing.NewEntrySignsIff | internal/wallet/utxos.go:301-314 | A new entry can be signed for with the key GetInputKeys picks if and only if its address is listed or was registered rightly. |
| Signing.StepKeepsSigning | internal/wallet/utxos.go:238-449 | Every event of a run keeps all entries signable, provided keys are registered rightly. |
| Signing.RunSigns | internal/wallet/utxos.go:87-120 | In every reachable state, the key picked for each entry unlocks the address its output pays. |
| FeedOrder.ProcessAt | internal/wallet/utxos.go:238-332 | Everything one pass does to the wallet, entry by entry: flags, new entries and the index. |
| FeedOrder.ProcessCommutes | internal/wallet/utxos.go:238-332 | Feed first or wallet first, a transaction recorded by both leaves the same ledger, marks and lists. |
| FeedOrder.ProcessIdempotentIff | internal/wallet/utxos.go:238-332 | Repeating a pass changes nothing if and only if no output became owned only through marks of that pass. |
| FeedOrder.ProcessNotIdempotent | internal/wallet/utxos.go:285-329 | A payment to address 1 before one to address 0, with a gap of one, is recorded differently the second time. |
| LedgerRun.StepKeepsRefinementIff | internal/wallet/utxos.go:238-449 | One event keeps the ledger equal to the history if and only if it is allowed: parents before children, no conflict over a freed outpoint, children reverted first. |
| LedgerRun.RunRefinesIff | internal/node/listener.go:140-211 | After every prefix of a run an entry is stored iff its output was owned and recorded, undeleted iff its transaction stands and nothing standing spends it, and not pending iff confirmed; all this iff each event was allowed when it happened. |
| LedgerRun.OrderlyRunRefines | internal/node/listener.go:140-211 | When no child is fed before its parent is recorded, nothing is broadcast after its confirmation or reversal, and a reversal precedes those of its parents and follows no conflicting transaction, the ledger equals the history throughout; judged on the event list alone. |
| LedgerRun.FitsIsAllowed | internal/wallet/utxos.go:238-449 | An event that fits those before it is allowed in the state they led to. |
| LedgerRun.RunExactGap | internal/wallet/addresses.go:107-203 | After every event of every run each list is exactly one gap longer than its last used address, as long as growth between the events keeps it so; over whole runs of a node it always does (NodeRuns.GapsStayExact). |
| LateOutputs.OwnedLateIff | internal/wallet/utxos.go:285-329 | On exact gaps, an output becomes owned late if and only if it pays a position at or past its list's length when its turn comes and below the final length, both computed from the positions paid. |
| LateOutputs.IdempotentByPositions | internal/wallet/utxos.go:238-332 | On exact gaps, repeating a pass changes nothing if and only if no output pays such a position, or another one pays it in time and the early one leaves no entry; judged before the call. |
| LedgerRun.ReservedStays | internal/node/node.go:187-198 | No event, reversals included, ever frees a reserved entry. |
| LedgerRun.StepKeepsSelection | internal/wallet/funding.go:196-222 | An event keeps all inputs of all broadcasts reserved and disjoint, when a broadcast spends distinct unreserved entries. |
| LedgerRun.RunNeverSelectsTwice | internal/wallet/funding.go:196-416 | Over any run whose broadcasts were so selected, no outpoint is an input of two of them. |
| LedgerRun.RunExtends | internal/wallet/addresses.go:107-203 | Over any run the index only grows. |
| Wallets.Wallet.constructor | internal/wallet/wallet.go:84-125 | A new wallet is empty, prepared and valid. |
| Wallets.Wallet.Loaded | internal/wallet/wallet.go:71-82 | A loaded wallet holds the loaded index and ledger and the transactions it still knows. |
| Wallets.Wallet.AddWireTx | internal/wallet/transactions.go:14-37 | A transaction the inspector accepts is stored unpromoted under its own id and no other entry changes; one it refuses changes nothing. |
| Wallets.Wallet.SpendInputs | internal/wallet/utxos.go:240-283 | The input loop has its effect on values; the log lines find the entries they name. |
| Wallets.Wallet.RecordOutput | internal/wallet/utxos.go:286-329 | One turn of the output loop: at most one new entry, with the found address's key, and that address marked, even for value zero. |
| Wallets.Wallet.ProcessUTXOs | internal/wallet/utxos.go:238-332 | Both loops together end in the state that FeedOrder and LedgerRun reason about. |
| Wallets.Wallet.FinalizeUTXOs | internal/wallet/utxos.go:334-368 | The loop ends in the finalized ledger and leaves the index alone. |
| Wallets.Wallet.FreeInputs | internal/wallet/utxos.go:372-415 | The input loop of a reversal has its effect on values. |
| Wallets.Wallet.RevertUTXOs | internal/wallet/utxos.go:370-449 | Both loops end in the reverted ledger and leave the index alone. |
| Wallets.Wallet.GetInputKeys | internal/wallet/utxos.go:87-120 | With a signable ledger, the keys returned are, in order, the keys of the addresses the inputs spend. |
| Funding.TxBuilder.AddFunding | internal/wallet/models.go:250-256 | Inputs are appended in the order offered, each offered output at most once, whatever subset is taken; success is reported only when there is an input. |
| Funding.SignInputs | internal/wallet/funding.go:31-39 | Keys are missing exactly when an input is not stored; after success every input is signed with the key of the entry it spends. |
| Funding.BroadcastTx | internal/node/node.go:200-221 | The network may feed the transaction back before it answers; the wallet then stands where that feed leads. |
| Funding.RecordFed | internal/node/listener.go:74-78 | Preprocessing a fed transaction and storing it, unless the inspector refuses it, is the feed step of a run. |
| Funding.SendSigned | internal/wallet/funding.go:41-48 | Exactly an accepted transaction is recorded as our own, and that is the last event of the call. |
| Funding.SignAndSend | internal/wallet/funding.go:31-48 | Keys, signature, broadcast and recording leave the transaction and the events the value version gives: recorded exactly when the inputs are stored, signing works and the network accepts. |
| FundingSpec.SendCallResult | internal/wallet/funding.go:31-48 | What such a tail guarantees: nothing else happens, the selection is safe exactly when the inputs were distinct and unreserved, only what the transaction spends becomes reserved, and each input is signed by the key its output is locked to. |
| FundingSpec.SendEffect | internal/wallet/funding.go:41-48 | Being fed back first does not make a selected input unspendable, loses no entry and stores every owned output. |
| Funding.TotalFunding | internal/wallet/funding.go:114-121 | The amount of the separate payment: the estimate, twice the dust limit when too low, plus everything the transaction pays. |
| FundingSpec.TakenPicked | internal/wallet/funding.go:25-30 | Whatever subset of a selection is taken is still a selection of distinct unreserved entries. |
| FundingSpec.BothSpendable | internal/wallet/funding.go:57-71 | Inputs under a relationship key and added bitcoin inputs never overlap. |
| FundingSpec.PickedSpendsKey | internal/wallet/funding.go:204-210 | An entry selected for a key is locked to that very key, a selected bitcoin entry to a key of the bitcoin lists. |
| FundingSpec.FirstInputKey | internal/wallet/funding.go:193-195 | The first input that spends the requested key is signed by the requested key. |
| FundingSpec.FundedDirectly | internal/wallet/funding.go:204-267 | With value under the requested key, topped up or not, input 0 is locked to that key; for a relationship key the inputs are always distinct and unreserved, so the selection is safe; nothing is reserved but bitcoin entries and what pays the key. |
| FundingSpec.SeparateSelected | internal/wallet/funding.go:269-373 | The separate payment and the transaction that spends it are both selected safely if and only if output 0 of the payment was not reserved before the call. |
| FundingSpec.SeparateStored | internal/wallet/funding.go:345-358 | Output 0 of the separate payment is found by GetInputKeys because its key was registered beforehand. |
| Funding.AddSeparateFunding | internal/wallet/funding.go:269-373 | Funding through a separate payment, on the objects, ends as the value version says for the order in which the ledger offered its outputs. |
| FundingSpec.SeparateCallResult | internal/wallet/funding.go:269-373 | Whatever the library and the network decide: the finished transaction's only input spends output 0 of a transaction sent first, which pays the computed amount to the requested address, and only that and bitcoin entries become reserved. |
| FundingSpec.FundedSeparately | internal/wallet/funding.go:269-373 | That path meets the same guarantee as direct funding, after the change address was given, and sends the payment first. |
| Funding.AddFunds | internal/wallet/funding.go:22-191 | The three branches of a funding call leave the transaction and the events the value version gives, for the order in which the ledger offered its outputs. |
| FundingSpec.FundCallResult | internal/wallet/funding.go:196-375 | Of every funding call: value under the requested key is spent directly, alone or topped up, without any other transaction; without any, a payment to the key goes first; input 0 is locked to the key; and for a relationship key the selection is safe as long as no reserved entry pays it. |
| Funding.AddKeyIndexFunding | internal/wallet/funding.go:22-191 | The guarantee for an underived key, whose address must exist. |
| Funding.AddKeyFunding | internal/wallet/funding.go:196-375 | The guarantee for a key derived with a hash. |
| Funding.AddBitcoinFunding | internal/wallet/funding.go:379-416 | Bitcoin funding broadcasts only the transaction itself, selected safely and signed rightly; its keys are always found; it fails for lack of funds exactly when nothing is selected. |
| FundingSpec.BitcoinCallResult | internal/wallet/funding.go:379-416 | The same of every such call, whatever the library and the network decide. |
| FundingRuns.SpentOnceIff | internal/wallet/funding.go:196-416 | From a wallet without entries, however a plan of requests for any relationship keys, lifecycle events and restarts goes, no outpoint is spent by two broadcasts if and only if it never comes to a request that meets the condition of CallSafeIff; the condition is judged on the ledger and the request before the call. |
| FundingRuns.CallSafeIff | internal/wallet/funding.go:196-375 | However it goes, a request keeps every outpoint spent at most once if and only if it is not the case that nothing is left under its key, a change address is free, and a payment to the key that could be built from bitcoin outputs now is recorded with its output reserved. |
| FundingRuns.UnsafeRebuilds | internal/wallet/funding.go:269-373 | A call that spends a reserved outpoint found the condition met. |
| FundingRuns.RebuiltCall | internal/wallet/funding.go:269-373 | Where the condition is met, some choice of the library and order of the outputs makes the call send that same payment and spend its output again. |
| FundingRuns.NoneReservedSafe | internal/wallet/funding.go:269-373 | A key that no reserved entry pays never meets the condition. |
| RebuiltPayments.RebuiltPayment | internal/node/node.go:187-198 | A plan that comes to such a request, each step as the funding calls make it: a payment fed back by a failed broadcast is confirmed, spent and reversed, and the same key is asked for again. |
| FundingRuns.RunReservedSpent | internal/wallet/utxos.go:262-268 | In every run an entry is reserved only if a broadcast spends it. |
| FundingSpec.CallKeepsOnce | internal/wallet/funding.go:196-375 | A whole call that selects safely, whatever it broadcast, keeps every outpoint an input of at most one broadcast, once. |
| UniqueKeys.RunMarked | internal/wallet/utxos.go:301-328 | In every reachable state, a list key that was never marked has no entry. |
| UniqueKeys.ReloadedKeeps | internal/wallet/wallet.go:277-385 | A save and load keeps entries signable, derived keys right, gaps exact and the keys of entries marked, although public keys and given flags are lost. |
| NodeRuns.NeverSpentTwice | internal/wallet/funding.go:196-375 | Over every run of a node from a new wallet (transactions fed, confirmed, reversed, their messages processed, addresses given out, restarts, and all initiations, accepts and messages, successful or not) no outpoint is an input of two transactions it broadcast, or twice of one. |
| NodeRuns.InitiationKeysUnique | internal/relationships/initiate.go:36-55 | Over every such run no two relationships it initiated are under the same key. |
| NodeRuns.ChainsStayRight | internal/relationships/relationship.go:36-55 | Over every such run each relationship and each member stands on the chain of its seed, every key of ours up to the next is registered with its position's hash, and every stored output can be signed for. |
| NodeRuns.GapsStayExact | internal/wallet/addresses.go:107-203 | Over every such run each address list is exactly one gap longer than its last used address. |
| NodeRuns.RunKeepsNode | internal/node/node.go:132-198 | The invariant behind these holds after every run of any node that has it. |
| NodeRuns.NewNodeInv | internal/wallet/wallet.go:84-110 | A node with a new wallet has it. |
| NodeRuns.NextKeyFree | internal/relationships/message.go:149-163 | No reserved entry pays the next key of a relationship: a reserved derived entry is under a key its relationship has passed. |
| NodeRuns.SendKeepsNode | internal/relationships/message.go:149-163 | A send or accept, successful or not, keeps the invariant: it reserves what pays the key only when the chain then leaves that key behind. |
| NodeRuns.InitiateKeepsNode | internal/relationships/initiate.go:29-230 | An initiation, successful or not, keeps it, and a successful one is under a key no earlier initiation used. |
| NodeRuns.ProcessKeepsNode | internal/node/node.go:132-185 | Processing the messages of a transaction keeps it. |
| NodeRuns.RestartKeepsNode | internal/wallet/wallet.go:277-385 | A restart keeps it, whatever transactions the node still knows. |
| NodeRuns.CallersNeverRebuild | internal/wallet/funding.go:269-373 | The keys a node asks funding for never meet the condition of FundingRuns.CallSafeIff. |
| NodeOperations.FeedNext | internal/node/listener.go:45-137 | HandleTx on the objects leads to the next state of such a run, or to the same one for a transaction it drops. |
| NodeOperations.ProcessNext | internal/node/node.go:132-185 | So does processing a safe or confirmed transaction. |
| NodeOperations.ReverseNext | internal/node/node.go:187-198 | So does a reversal. |
| NodeOperations.GiveNext | internal/wallet/addresses.go:15-31 | So does giving out an address to receive with. |
| NodeOperations.InitiateNext | internal/relationships/initiate.go:29-230 | So does a call of InitiateRelationship with a fresh seed; the relationship it stores is under a key no earlier initiation used. |
| NodeOperations.SendNext | internal/relationships/message.go:26-166 | So does a call of AcceptRelationship or SendMessage. |
| NodeOperations.RestartNext | internal/wallet/wallet.go:71-138 | So does saving and loading wallet and relationships: the new node, its wallet prepared again, can go on from there. |
| NodeOperations.PrepareLoaded | internal/wallet/wallet.go:102-108 | Preparing a loaded wallet adds no address when its gaps were exact. |
| NodeOperations.ReloadRelationships | internal/relationships/relationships.go:411-438 | The relationship objects come back over the reloaded index with the states they had. |
| Ratchet.FirstByKey | internal/relationships/relationships.go:65-76 | The first stored relationship under a key, or none when none has it. |
| Ratchet.FirstByFlag | internal/relationships/relationships.go:101-109 | The first stored relationship with a flag, or none when none has it. |
| Ratchet.SearchChain | internal/relationships/relationship.go:17-34 | The smallest position in the window whose derived key matches, or none when there is none. |
| RatchetLaws.AdvanceOwnInv | internal/relationships/relationship.go:36-55 | Advancing keeps the chain invariant: the position's hash, its derived key, and every key up to it registered. |
| RatchetLaws.SendStepInv | internal/relationships/message.go:154-163 | A send keeps the invariant and moves our chain, and in direct mode every member's, by exactly one. |
| RatchetLaws.MessageFlag | internal/node/node.go:150-158 | The flag found in a message transaction is the flag of its relationship. |
| RatchetLaws.ReplayMatchesSend | internal/relationships/relationships.go:118-273 | Processing one's own message from the state before the send gives exactly the state the send left, in both modes. |
| RatchetLaws.ReplayAfterSendIdle | internal/relationships/relationships.go:118-273 | Processing it after the send changes nothing, in both modes. |
| RatchetLaws.StaleTxIdle | internal/relationships/relationships.go:118-273 | A transaction of ours whose keys all lie behind us changes nothing. |
| RatchetLaws.ReceiveDirect | internal/relationships/relationships.go:189-268 | A direct message finds the relationship; our chain advances iff the receiver key is our next, the sender's iff the sender key is its next. |
| RatchetLaws.ReceiveDirectIff | internal/relationships/relationships.go:189-229 | A direct message is matched if and only if the entry of its receiver key still holds its public key, which a reload takes away; it is matched to the first relationship stored under that key, and any later one under it stays as it is. |
| RatchetLaws.ReceiveIndirect | internal/relationships/relationships.go:118-273 | An indirect message moves at most the sender's chain, iff its key was the expected one, and is otherwise put down to member 0. |
| RatchetLaws.MemberKeyInjective | internal/relationships/relationships.go:242-250 | A derived member key is some member's next key only at that member's own position. |
| RatchetLaws.OwnEncryptionKey | internal/relationships/relationships.go:275-330 | For our own keys the lookup gives the sum of encryption key and chain value anywhere in the window and fails beyond it. |
| RatchetLaws.MemberEncryptionKey | internal/relationships/relationships.go:305-330 | For a member's keys: right at the expected position, the encryption key added twice elsewhere in the window, not found beyond. |
| RatchetLaws.MemberEncryptionKeyIff | internal/relationships/relationships.go:305-330 | The key a member encrypted with is found if and only if its position is the expected one. |
| Protocol.AfterSendInv | internal/relationships/message.go:154-163 | What a send leaves of a participant: identity unchanged, one step on, accepted after an accept. |
| Direct.StepKeepsInv | internal/relationships/relationships.go:118-273 | Every send, delivery and unrelated event keeps equal own and mirrored positions and no gap, and only a send moves the side that is ahead. |
| Direct.Convergence | internal/relationships/relationships.go:118-273 | Once nothing is on its way the two sides hold identical positions, hashes and keys, those of the side further along. |
| Direct.DrainKeepsAhead | internal/relationships/relationships.go:118-273 | Without sends, deliveries only catch up with the side that is ahead. |
| Direct.DeliveredKeysRegistered | internal/relationships/relationships.go:189-225 | In every run, the receiver key of the next message is already registered with its position's hash. |
| Direct.AcceptNotesSound | internal/relationships/accept.go:212-222 | In every run a side is noted as accepted only if it accepted. |
| Indirect.StepKeepsInv | internal/relationships/relationships.go:227-273 | Every event keeps each mirror exactly as far behind as messages are on their way. |
| Indirect.MirrorsAgree | internal/relationships/relationships.go:242-250 | In every run a mirror never passes the chain it mirrors, is behind by the messages on their way, and equals it once all have arrived. |
| Indirect.DeliveredKeyDecrypts | internal/relationships/message.go:123-128 | In every run the recipient of the next message, the sender included, finds exactly the key it was encrypted with. |
| Indirect.AcceptNotesSound | internal/relationships/accept.go:212-222 | In every run a member is noted as accepted only if it accepted. |
| Decrypting.FindHash | internal/relationships/relationships.go:275-319 | The four searches over the stored objects give what the key laws are about. |
| Decrypting.FindEncryptionKey | internal/relationships/relationships.go:321-330 | The same for the encryption key. |
| Decrypting.ChooseKey | internal/relationships/relationships.go:350-408 | The key of the first input the flagged relationship knows, unless an unlocking script that does not parse comes first and ends the attempt; direct decryption without a flag, relationship, indirect mode or known input. |
| Decrypting.SealOpens | internal/relationships/message.go:123-128 | The key an indirect message is encrypted with is what its sender finds for its own next key; a recipient finds it if and only if its mirror stands at the sender's position. |
| Decrypting.DeliveredKeyChosen | internal/relationships/relationships.go:332-409 | In every indirect run the key the node chooses for the next message is the one it was encrypted with. |
| RelationshipManager.Member.IncrementHash | internal/relationships/member.go:8-13 | The object moves to the next hash, position and derived key. |
| RelationshipManager.Member.FindKey | internal/relationships/member.go:15-32 | The smallest window position whose derived key matches, with its chain hash, or none. |
| RelationshipManager.SearchWindow | internal/relationships/relationship.go:17-34 | The walking loop finds the smallest matching position and its hash exactly when there is one. |
| RelationshipManager.Relationship.IncrementHash | internal/relationships/relationship.go:36-55 | Our chain advances in place and its new key is registered; members stay. |
| RelationshipManager.Relationship.FindKey | internal/relationships/relationship.go:17-34 | The smallest window position of our chain whose derived key matches, with its hash, or none. |
| RelationshipManager.Relationship.AdvanceKey | internal/relationships/relationships.go:242-250 | Exactly the first member that expects the key advances. |
| RelationshipManager.Relationship.AdvanceAll | internal/relationships/message.go:158-163 | Every member advances by one, and nothing else changes. |
| RelationshipManager.Relationships.GetRelationship | internal/relationships/relationships.go:65-76 | The first relationship object under a key; none exactly when none has it. |
| RelationshipManager.Relationships.FindRelationshipForFlag | internal/relationships/relationships.go:78-109 | The first relationship object with a flag; none exactly when none has it. |
| RelationshipManager.Relationships.SenderTurn | internal/relationships/relationships.go:132-183 | One sender index, with all its error exits, on the objects. |
| RelationshipManager.Relationships.ReceiverTurn | internal/relationships/relationships.go:190-224 | One receiver index: a key that merely fits an already found relationship advances nothing. |
| RelationshipManager.Relationships.LoopSenders | internal/relationships/relationships.go:130-183 | The sender loop, errors after partial advances included. |
| RelationshipManager.Relationships.LoopReceivers | internal/relationships/relationships.go:189-225 | The receiver loop, errors after partial advances included. |
| RelationshipManager.Relationships.SeeSenderKeys | internal/relationships/relationships.go:231-251 | Which members advance for the sender keys, and which member the transaction is put down to. |
| RelationshipManager.Relationships.SeeReceiverKeys | internal/relationships/relationships.go:253-268 | Which members advance for the receiver keys; an index out of range is the unchecked access. |
| RelationshipManager.Relationships.GetRelationshipForTx | internal/relationships/relationships.go:118-273 | The whole search changes the stored objects exactly as the ratchet on values says, and returns what it says, errors included. |
| Messages.ProcessAcceptRelationship | internal/relationships/accept.go:194-225 | Chains move, then the sender or the right member is marked accepted, unless there are several senders; when a refeed is asked for. |
| Messages.ProcessPrivateMessage | internal/relationships/message.go:168-201 | Only the chains move; the same refusals and refeed answer. |
| Messages.ProcessIsReceive | internal/relationships/message.go:168-201 | Processing a message of one sender is the delivery step of the protocol runs. |
| MessageSending.BuildOutputs | internal/relationships/message.go:70-147 | In direct mode one output per member in member order with its index listed, then flag, then envelope. |
| MessageSending.AdvanceSent | internal/relationships/message.go:154-163 | The step after a send, on the objects, is that of the protocol. |
| MessageSending.FundedIsMessage | internal/relationships/message.go:149-152 | A transaction whose first input was funded from our next key is the message of the protocol, whatever else funding added. |
| MessageSending.FundMessage | internal/relationships/message.go:26-152 | Up to funding the relationships do not move, the last broadcast is the message, everything is selected safely as long as no reserved entry pays our next key, and only bitcoin entries and, once sent, what pays that key become reserved. |
| MessageSending.SendMessage | internal/relationships/message.go:26-166 | Refused iff not accepted (or, for an accept, already accepted); nothing moves unless the message was sent and recorded; then exactly the protocol's step happens. AcceptRelationship is the same call with the other kind. |
| MessageSending.AfterSendIndex | internal/relationships/relationship.go:50-52 | Registering the next key takes nothing from the index. |
| Initiate.JoinRebuildsMembership | internal/relationships/initiate.go:232-430 | A participant stores all keys of the transaction in order with its own first key left out, every chain at position 1 of the seed, and its first chain key registered. |
| Initiate.MembershipIsPermutation | internal/relationships/initiate.go:275-417 | Own key and members together are a permutation of sender and receivers. |
| Initiate.StrangerRejected | internal/relationships/initiate.go:419-421 | A wallet that owns none of the keys refuses and stores nothing. |
| Initiate.RebuiltChainIff | internal/relationships/initiate.go:302-325 | The stored next key derives from the stored key if and only if a listed key was named and, for the sender, its entry holds its public key. |
| Initiate.RecoveredInitiator | internal/relationships/initiate.go:248-255 | An initiator that rebuilds its own relationship gets back all of it except that it is accepted. |
| Initiate.StartsDirect | internal/relationships/initiate.go:79-98 | Initiator and receiver of one relationship start with the direct invariant. |
| Initiate.StartsIndirect | internal/relationships/initiate.go:79-98 | Initiator and several receivers start with the indirect invariant. |
| Initiate.StartsDirectIff | internal/relationships/initiate.go:240-245 | They do so if and only if neither stores a relationship under its key already. |
| Initiate.StartsIndirectIff | internal/relationships/relationships.go:78-109 | And these if and only if the flag is new to all of them; the keys may be shared. |
| Initiate.SecondIsShadowed | internal/relationships/initiate.go:240-245 | After two initiations to one receiving key two relationships are stored under it; a direct message of the second is put down to the first, and the second stays as it is. |
| Initiating.JoinKey | internal/relationships/initiate.go:291-346 | One participant key: ours if none was found yet and the wallet owns it, else a new member; the wrong key type is an error. |
| Initiating.JoinSenderKey | internal/relationships/initiate.go:275-347 | The sender key with its range and script errors. |
| Initiating.JoinReceiverKeys | internal/relationships/initiate.go:353-417 | The receiver loop, with errors that leave our key registered. |
| Initiating.ProcessInitiateRelationship | internal/relationships/initiate.go:232-430 | The objects end as the rebuilt membership on values says; a known transaction changes nothing. |
| Initiating.BuildInitiated | internal/relationships/initiate.go:48-98 | The initiator's relationship: flag, indirect mode and encryption key only for several receivers, every member at position 1. |
| Initiating.InitiateRelationship | internal/relationships/initiate.go:29-230 | Stored only after its transaction was funded from the picked key, sent and recorded; then it is what the others rebuild, under the id of that transaction. |
| Initiating.SpentKeyMarked | internal/relationships/initiate.go:211-220 | A key whose output funded the transaction is marked used. |
| Initiating.UnmarkedNoneReserved | internal/relationships/initiate.go:36-55 | A list key that was never marked is paid by no stored entry, reserved or not. |
| Initiating.GuaranteeFunded | internal/relationships/initiate.go:211-214 | The funded transaction is the initiate transaction of the picked key; as that key was never used the selection is safe, and afterwards the key is marked. |
| KeyGrowth.MatchGrows | internal/relationships/relationships.go:118-273 | Whatever transaction is matched, and however that ends, the index only gains keys, each deriving from what it is filed under, lists stay, and every chain, members included, only moves forward on its own seed. |
| KeyGrowth.InitiateCoherentIff | internal/relationships/initiate.go:302-325 | An initiate message keeps the derived keys right if and only if the key it takes for ours is a list key that, for the sender, is still in its entry; judged before it is processed. |
| KeyGrowth.InitiateGrows | internal/relationships/initiate.go:232-430 | Then it only adds keys, and the new relationship is under a list key, on its chain, with its first key registered. |
| Nodes.AllGrow | internal/node/node.go:160-182 | Processing all outputs of a transaction only adds keys, rightly, and only moves chains forward, unless an initiate message takes anything but a list key. |
| Nodes.InputsVerdictIff | internal/node/listener.go:53-97 | An input keeps the transaction if and only if it is relevant and nothing unreadable precedes it. |
| Nodes.OutputsVerdictIff | internal/node/listener.go:99-134 | The same for outputs. |
| Nodes.DroppedIsIdle | internal/node/listener.go:45-137 | A transaction dropped with every script readable would have changed nothing. |
| Nodes.UnreadableHides | internal/node/listener.go:55-58 | An unreadable unlocking script hides a payment that follows it. |
| Nodes.Node.Filter | internal/node/listener.go:53-136 | The two loops give the verdict on the monitored hashes, stored outpoints and known flags. |
| Nodes.Node.HandleTx | internal/node/listener.go:45-137 | A relevant transaction is the feed step of a run, kept or refused by the inspector; a known one changes nothing; one dropped without error would have changed nothing. |
| Nodes.Node.RevertTx | internal/node/node.go:187-198 | A reversal is the reverse step of a run. |
| Nodes.Node.FinalizeTx | internal/node/node.go:132-148 | Promotion and finalizing are the confirm step of a run. |
| Nodes.Node.ProcessTx | internal/node/node.go:132-185 | A promoted or unpromotable transaction changes nothing; any other is finalized, and its outputs are decrypted with the key chosen at that moment and processed in order until one is refused. |
| Nodes.Node.HandleTxState | internal/node/listener.go:140-211 | Safe and confirmed process, cancelled, unsafe and reverted reverse, and only for a kept transaction. |
| Nodes.ProcessMessage | internal/node/messages.go:16-36 | Each message leads to its handler, one of another kind is ignored, one that cannot be read is refused. |
| Nodes.ProcessMessages | internal/node/node.go:160-182 | For each output in order the key is chosen, the message decrypted and processed; the first refusal ends the transaction. |
| Nodes.FindFlag | internal/node/node.go:150-158 | The flag is that of the first output that carries one. |
| Codec.IntRoundTrip | internal/relationships/models.go:133-139 | An integer written with a width reads back if and only if it fits. |
| Codec.TakeSomeAppend | internal/relationships/models.go:201-216 | A read into a slice gives back what was written whenever bytes follow. |
| RelationshipStore.MemberRoundTripIff | internal/relationships/models.go:47-105 | A member reads back if and only if its next key is the one its hash derives, which is recomputed. |
| RelationshipStore.RelationshipRoundTripIff | internal/relationships/models.go:107-245 | A relationship, followed by anything, reads back but for its next key if and only if seed and flag are under 65536 bytes. |
| RelationshipStore.StoreRoundTripIff | internal/relationships/models.go:247-290 | The same for a whole store, which leaves exactly what followed it. |
| RelationshipStore.LoadRestores | internal/relationships/relationships.go:411-438 | After save and load every relationship on its chain is exactly what it was. |
| RelationshipStore.SerializeMember | internal/relationships/models.go:47-70 | The writes of a member object, in order, are its stored form. |
| RelationshipStore.SerializeRelationship | internal/relationships/models.go:107-169 | The writes of a relationship object, in order, are its stored form. |
| RelationshipStore.Serialize | internal/relationships/models.go:247-263 | The writes of all relationships, behind version and count, are the stored form. |
| RelationshipStore.DeserializeMember | internal/relationships/models.go:72-105 | The reads give the member the bytes describe, or fail exactly when they describe none. |
| RelationshipStore.DeserializeRelationship | internal/relationships/models.go:171-245 | The reads give the relationship the bytes describe, or fail exactly when they describe none. |
| RelationshipStore.Load | internal/relationships/relationships.go:411-438 | Loading reads the stored relationships and derives every next key, or fails exactly when the bytes do not parse. |
| WalletStore.AddressRoundTrip | internal/wallet/models.go:38-118 | A stored address reads back: address, key and used, and nothing else. |
| WalletStore.UtxoRoundTrip | internal/wallet/models.go:152-248 | A stored output reads back with its key and all three flags. |
| WalletStore.FileRoundTrip | internal/wallet/wallet.go:190-404 | A wallet file, whatever order it lists its maps in and whatever follows, reads back as written and leaves what followed. |
| WalletRestore.CollectList | internal/wallet/wallet.go:216-225 | A list is written in order, entry by entry. |
| WalletRestore.CollectDerived | internal/wallet/wallet.go:227-242 | Exactly the derived entries are written, each once, in whatever order the address map gives them. |
| WalletRestore.CollectBuckets | internal/wallet/wallet.go:247-260 | Every bucket is written once, none of them empty and each entry naming its own bucket. |
| WalletRestore.RebuildHashes | internal/wallet/wallet.go:294-307 | The monitored hashes come back whatever order they were written in. |
| WalletRestore.RestoreIndex | internal/wallet/wallet.go:294-355 | The index comes back with lists and map sharing entries, whatever the order: all but given flags and public keys. |
| WalletRestore.RestoreLedger | internal/wallet/wallet.go:360-385 | The buckets come back under the transaction their first entry names, whatever the order. |
| WalletRestore.Serialize | internal/wallet/wallet.go:190-260 | The bytes written are one of the ways to write this index and ledger, each map entry once. |
| WalletRestore.Deserialize | internal/wallet/wallet.go:277-385 | Bytes that do not parse are an error; bytes that describe a wallet give back that wallet. |
| WalletRestore.WritableStorable | internal/wallet/wallet.go:190-260 | If the wallet's own terms read back and its counts fit, every way to write it reads back, since an enumeration is no longer than its map. |
| WalletRestore.Restart | internal/wallet/wallet.go:71-138 | Save then load gives the same ledger and monitored hashes, and the same index but for given flags and public keys. |
| WalletRestore.PreparedWritable | internal/wallet/wallet.go:84-138 | A new wallet can be written by any library that reads its list keys and addresses. |
| WalletRestore.RestartNew | internal/wallet/wallet.go:71-138 | A new wallet, saved and loaded with such a library, comes back. |
| WalletRestore.RecordsDecide | internal/wallet/wallet.go:247-260 | The written records determine the state of the ledger, in both directions. |
| WalletRestore.ReloadedScanIdle | internal/wallet/wallet.go:102-108 | Preparing a reloaded wallet whose gaps were exact adds no address. |

## Left out

- Concurrency inside one call: each command, delivery and event is atomic. Selecting and reserving outputs are not under one lock in the code, so that no other call runs between them is assumed.
- Elliptic curves, hashing, encryption, envelope and protobuf formats and script parsing: free terms and small contracts. A script is an address, a flag, an envelope or unreadable.
- Fee and size estimation, including its float32 arithmetic: the estimate is a parameter, and adding funding takes any subset of the offered outputs in order.
- Integer widths in memory: indexes and positions are unbounded. Widths matter, and are modelled, in the stored forms.
- Errors of the key library, which the code passes on: deriving a key always succeeds.
- Payload assembly and the direct decryption of `internal/wallet/encryption.go`: which key is used is modelled, what an output holds for that key is a parameter of `Nodes.Node.ProcessTx`.
- Proof of identity fields and the contents of private messages.
- Stored transaction bodies, the last part of the wallet file: which transactions a restarted node still knows, and which of them count as promoted, is a parameter of the restart.
- Command server, sockets, client commands, configuration, database, network listener, RPC, block handling, refeeding and logging.
- Loading when nothing was saved yet: only present data is read.
- AddressIndexes.AddressIndex.AddIndependentKey: asks that the list entry it derives from exists, which holds for every caller in the repository because the type and index come from such an entry.
- AddressIndexes.AddressIndex.FindAddress: addresses with several key hashes are never found, as no stored address has that form.
- Ledgers.Ledger.FindUTXO: the five methods that change one flag repeat this search in the code and call it here. The three selectors share one loop in the same way.
- Funding.AddFunds: the two calls for one key differ in the code only in selector and address and share this method here. The claim on the first input is made for transactions without inputs, which is how every caller passes them; with inputs already present it does not hold.
- FundingSpec.FundedDirectly: selection is always safe for the two relationship key types, the only ones callers pass; an external or internal key could be selected twice in one call, so the runs of `FundingRun.dfy` ask for relationship keys only.
- Funding.TxBuilder.AddFunding: that success leaves at least one input is part of the contract given to the transaction library, since a fee is always due.
- Decrypting.ChooseKey: a script that parses but names no key stands for the library's wrong type error, one that does not parse for all its other errors.
- NodeRuns.NeverSpentTwice: of the messages of others it is assumed that they end no program, join by list keys (`KeyGrowth.InitiateCoherentIff`) and do not reuse a seed under the same key of ours; of our own seeds, which are random, that they are new.
- RelationshipManager.Relationships.GetRelationshipForTx: after the unchecked output index, where the program would end, nothing is claimed of the state.
- Nodes.Node.ProcessTx: that the index only grew is proved unless an initiate message takes anything but a list key for ours, because such a message may register a key again under what it does not derive from.
- RelationshipStore.Load: memory reserved for a count that exceeds the data is not modelled, and what a failed load leaves behind is not specified.
- WalletRestore.Deserialize: bytes that parse but describe no valid wallet, which only a damaged file could hold, are excluded.
- Direct.Convergence and Indirect.MirrorsAgree: runs contain no restart, because a reload takes away the public keys that matching relies on. A direct relationship is also the first stored under its key, which is exactly when its protocol starts (`Initiate.StartsDirectIff`).
- FundingRuns.SpentOnceIff: of the transaction library it is assumed that, unless it refuses, it takes at least the first output it is offered.
