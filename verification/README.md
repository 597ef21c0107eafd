# A model of the sharded token ledger

This project models the token ledger behind the DCDT built-in functions of the VM common library, and
proves what the library relies on. Every shard keeps account records under a key built from a token
identifier and a nonce, and a system account with one entry per token and nonce: its metadata, the record
of which shards know it, and a liquidity counter. Creating, adding, burning, wiping, freezing, updating,
single and multi transfers change this state; a transfer to another shard is a debit that emits a text
message and a credit that reads it.

The ledger is written twice. `Ledger.dfy` and `Transfers.dfy` give each operation as a function on the
state of one shard; `Storage.dfy`, `Processes.dfy` and `TransferProcesses.dfy` give it as the library runs
it, on token objects changed in place, with its loops and lists, and every method is proved equal to its
function, errors included. An error leaves the state to the node, which reverts it.

`Network.dfy` puts the shards together: a state of all shards with the messages in flight, and one step per
built-in function, delivery or failed delivery. Properties of whole runs are proved there:

- liquidity (`Liquidity.dfy`, `NetworkLiquidity.dfy`),
- conservation of supply (`Totals.dfy`, `Supply.dfy`, `NetworkSupply.dfy`),
- the record of shards that know a token's metadata (`Bitmap.dfy`, `NetworkBitmap.dfy`),
- frozen records and collections (`Frozen.dfy`, `NetworkFrozen.dfy`).

What a single call does is stated on its arguments and on the state read back: what balances, freezing and
wiping change (`Balances.dfy`), which metadata is created, updated, kept and moved (`Metadata.dfy`,
`MetaMoves.dfy`), what entries mark, store and count (`Entries.dfy`), in which form a token travels
(`Payloads.dfy`), where gas and calls go (`Outputs.dfy`), and exactly when a call succeeds (`Guards.dfy`,
`SendGuards.dfy`).

Around the ledger stand the text of messages and calls (`TxData.dfy`, `Wire.dfy`, `Emission.dfy`,
`TransferParser.dfy`, `NftReports.dfy`, `NetworkReports.dfy`, `StorageUpdates.dfy`), the arithmetic of keys
and nonces (`TokenId.dfy`, `NonceRanges.dfy`), gas (`Gas.dfy`, `GasBounds.dfy`), the handover of the right
to create (`CreateRole.dfy`, `Handover.dfy`), role lists in place (`Roles.dfy`), deletion and addition of
metadata (`DeleteMetadata.dfy`, `DeleteLists.dfy`, `AddMetadata.dfy`), key-value storage (`KeyValue.dfy`) and the renumbering
of output transfers (`Reindex.dfy`). The branches for old tokens are shown to make no difference
(`OldTokens.dfy`).

Where the code does not do what it is for, one lemma runs it on an input and another gives the exact
condition:

- a wipe whose nonce holds a dash byte: `Examples.DashNonce`, `Limits.WipeKeepsExactly`;
- a receiver's address that is a small number: `Examples.SmallAddressMisread`,
  `TransferParser.AgreesWithSender`;
- a deletion that does not end: `DeleteMetadata.EndlessArguments`, `DeleteMetadata.EndsExactly`;
- a handover inside one shard: `Handover.SameShardHandoverRepeats`, `Handover.HandoverKeepsExactly`;
- saving key-value pairs without the gas fix: `KeyValue.UnfixedCreatesGas`, `KeyValue.RemainingUnfixed`;
- a fee that wraps: `Examples.FreeTransfers`, `Gas.MultiGasConserved`.

Integers of math/big are unbounded here as there; every uint64 and uint32 operation that may wrap is
written out with its modulus. Go slices are taken to have fewer than 2^63 entries where a counter depends
on it. An input on which the Go code stops with a run-time error gives the error `Panic`. Where a comment
and the code disagree the code is followed: `dcdtRoles.go:98` describes the start of a creator's nonces as
the last address byte times MaxUint64 divided by 256, while the code divides first.

`dafny verify dfyconfig.toml` checks the whole project.

## Model

| member | source | states |
|---|---|---|
| NetworkLiquidity.LiquidityOverRuns | builtInFunctions/dcdtDataStorage.go:268-322 | After every run over all shards: a shard without a system entry for an identifier and nonce has no holder of it, an entry with Reserved equals the sum of the holders, and no next step is refused for too little liquidity |
| NetworkLiquidity.StepKeeps | builtInFunctions/dcdtDataStorage.go:268-435 | Every step of every built-in function, transfer, delivery and failed delivery keeps that, and none returns the liquidity error |
| Liquidity.AdjustKeepsInv | builtInFunctions/dcdtDataStorage.go:294-320 | A record write followed by the matching change of liquidity keeps the equality; the branch for old tokens makes no difference there |
| Liquidity.UpdateKeeps | builtInFunctions/updateNFTAttributes.go:79-129 | An update rewrites the entry with value 0 and without Reserved, and keeps the invariant because such an entry no longer counts |
| Liquidity.CreateKeeps | builtInFunctions/dcdtNFTCreate.go:184-215 | Creation keeps the liquidity of its shard, also when it overwrites an existing nonce |
| Liquidity.MoveWithinShardKeeps | builtInFunctions/multiDCDTNFTTransfer.go:398-424 | A debit and a credit inside one shard leave the liquidity right without touching it |
| Liquidity.SendAwayKeeps | builtInFunctions/multiDCDTNFTTransfer.go:425-430 | A debit whose credit lies elsewhere lowers the liquidity by exactly what leaves |
| Liquidity.CreditFromAfarKeeps | builtInFunctions/multiDCDTNFTTransfer.go:558-592 | A credit from another shard raises it by exactly what arrives |
| Limits.WipeKeepsExactly | builtInFunctions/dcdtFreezeWipe.go:102-134 | A wipe keeps the liquidity right exactly when the nonce holds no byte 0x2D, or nothing was held, or neither the wiped nor the extracted key counts |
| Limits.MintAtNftKeyBreaks | builtInFunctions/dcdtLocalMint.go:70-108 | Minting at a token argument that spells an NFT's key keeps the invariant exactly when that NFT has an entry that does not count: identifiers have to be validated elsewhere |
| Examples.DashNonce | builtInFunctions/dcdtFreezeWipe.go:102-134 | A state that satisfies the invariant and a wipe of the nonce 0x2D after which it does not |
| OldTokens.FixMakesNoDifference | builtInFunctions/dcdtDataStorage.go:294-320 | Over every run the flag FixOldTokenLiquidity makes no difference: same state after the run, same outcome of every next step |
| NetworkSupply.SupplyOverRuns | builtInFunctions/multiDCDTNFTTransfer.go:381-433 | Over every run, under every combination of flags and for every key: all account values plus all message values equal created plus added plus minted minus burned minus wiped, fungible transfers counted where they leave and arrive |
| NetworkSupply.ShardTotalOverRuns | builtInFunctions/dcdtLocalMint.go:70-108 | Over every run of actions on one shard its total of a key changes by exactly what was created, added, minted, burned, wiped, sent off or received there |
| NetworkSupply.FungibleIssuesNoNft | builtInFunctions/dcdtLocalBurn.go:71-107 | Minting, burning and moving a valid fungible token issues nothing of any token with a nonce |
| NetworkSupply.StepBalance | builtInFunctions/dcdtNFTTransfer.go:206-288 | Every step changes the supply of a key by exactly what it issues; transfers, deliveries and failed deliveries issue nothing |
| NetworkSupply.SendMultiExact | builtInFunctions/multiDCDTNFTTransfer.go:258-379 | What a multi transfer takes off its shard is what the emitted message carries, as its receiver reads it |
| NetworkSupply.SendNftExact | builtInFunctions/dcdtNFTTransfer.go:206-321 | The same for a single transfer |
| NetworkSupply.DeliverExact | builtInFunctions/multiDCDTNFTTransfer.go:168-222 | A delivery adds to the shard exactly what the message carries, in all three payload forms |
| Supply.CreateShifts | builtInFunctions/dcdtNFTCreate.go:184-212 | A creation raises the total of its key by the quantity minus what the account held there before |
| NetworkBitmap.BitmapOverRuns | builtInFunctions/dcdtDataStorage.go:548-692 | After every run: a shard marked as knowing a token's metadata has an entry that holds it, or a message carrying the metadata is on its way there |
| NetworkBitmap.StepKnown | builtInFunctions/dcdtDataStorage.go:424-434 | Every step keeps that, failed deliveries and updates that reset the marks included |
| Bitmap.EncodeMarks | builtInFunctions/multiDCDTNFTTransfer.go:468-513 | A mark that encoding adds is for the destination's shard, and the item is spelled with its whole token |
| Bitmap.DeliverLearns | builtInFunctions/dcdtDataStorage.go:374-435 | After a delivery the receiver's shard has an entry for every key whose metadata the message carries; new marks name only shards that know |
| Bitmap.RejectLearns | builtInFunctions/dcdtDataStorage.go:598-692 | The same when the delivery fails and only the metadata is saved |
| NetworkFrozen.FrozenOverRuns | builtInFunctions/dcdtTransfer.go:252-311 | From any state, over any run that respects freezing: a frozen record stays frozen and keeps its value |
| NetworkFrozen.FrozenCollectionOverRuns | builtInFunctions/dcdtDataStorage.go:203-265 | From any state with valid messages, while a collection record stays frozen: what the account holds of every nonce of the collection stays the same over every run, creations included |
| Frozen.SaveTokenHeld | builtInFunctions/dcdtDataStorage.go:241-265 | No save changes what a protected record holds: one that carries the frozen record's own properties, or goes into a frozen collection, is refused |
| Frozen.CreditHeld | builtInFunctions/dcdtNFTTransfer.go:402-436 | A credit leaves a protected record alone, whatever properties travel with the token |
| Frozen.CreateOverwrites | builtInFunctions/dcdtNFTCreate.go:186-208 | Why creation is set apart: it replaces a frozen record by the created quantity, unfrozen |
| NetworkWire.StepWire | builtInFunctions/dcdtNFTTransfer.go:323-400 | Every message in flight crosses shards, can be read, and carries amounts of valid identifiers that are not negative |
| NetworkWire.ReachableMessagesValid | builtInFunctions/multiDCDTNFTTransfer.go:461-556 | In every reachable state all messages in flight are valid in this sense |
| MultiMoves.MultiIsSingleMoves | builtInFunctions/multiDCDTNFTTransfer.go:311-355 | A successful multi transfer inside a shard is its single moves in order, repeated tokens included: balances, no negative balance on the way, totals conserved, every other record untouched |
| Gas.MultiGasConserved | builtInFunctions/multiDCDTNFTTransfer.go:282-302 | Gas provided is gas held plus the charges as integers, exactly when no product wraps at 2^64 |
| GasBounds.MultiGasBalances | builtInFunctions/multiDCDTNFTTransfer.go:282-302 | A condition to check before the call, on the fee and on the marshalled size of each of the different tokens as they stand, under which the gas balances as integers |
| Examples.FreeTransfers | builtInFunctions/multiDCDTNFTTransfer.go:282-290 | Two transfers at a price of 2^63 each go through without any gas: the fee wraps to zero |
| Gas.EncodeCharge | builtInFunctions/multiDCDTNFTTransfer.go:484-513 | The argument loop charges for exactly the items spelled with their whole token |
| Gas.NftGasConserved | builtInFunctions/dcdtNFTTransfer.go:288-365 | The same balance for a single transfer, with or without the zero marker |
| Gas.FungibleGasConserved | builtInFunctions/dcdtTransfer.go:84-250 | A fungible transfer pays its fee where the sender lives; what it holds on the receiver's shard alone, case by case |
| Gas.ReceivedGasConserved | builtInFunctions/multiDCDTNFTTransfer.go:154-255 | A delivery charges nothing: all gas remains or goes on with the contract call |
| Balances.MintsExactly | builtInFunctions/dcdtLocalMint.go:70-108 | A mint succeeds exactly under conditions on the call and the record, and then raises the caller's balance of the token named first by the amount named second, and nothing else; an empty record goes |
| Balances.BurnsExactly | builtInFunctions/dcdtLocalBurn.go:71-107 | A burn succeeds exactly where it is permitted and covered, and lowers that balance by that amount |
| Balances.BurnUndoesMint | builtInFunctions/dcdtLocalBurn.go:71-107 | Burning what was minted leaves every balance as it was |
| Balances.FungibleMovesExactly | builtInFunctions/dcdtTransfer.go:84-192 | A fungible transfer takes the amount from the caller where the caller lives and gives it to the recipient where the recipient lives; every other record stays |
| Balances.FreezesExactly | builtInFunctions/dcdtFreezeWipe.go:136-153 | Freezing and thawing: the named record is frozen afterwards exactly if it was to be, holds what it held, and nothing else changes |
| Balances.ThawUndoesFreeze | builtInFunctions/dcdtFreezeWipe.go:136-153 | Thawing what was frozen brings back every balance |
| Balances.WipesExactly | builtInFunctions/dcdtFreezeWipe.go:102-134 | Only a frozen record is wiped; it is gone, other records stay, and of the entries at most that of the extracted key falls by what was held |
| Metadata.CreatedReadsBack | builtInFunctions/dcdtNFTCreate.go:184-212 | After a creation the owner's token at the next nonce reads back with the quantity and, field by field, the metadata of the arguments, under every combination of flags; no other record or entry changes |
| Metadata.UpdatedReadsBack | builtInFunctions/updateNFTAttributes.go:79-129 | After an update the token reads back with the new attributes and every other field, its type, value and properties as before; no other record or entry changes |
| Metadata.AddedReadsBack | builtInFunctions/dcdtNFTAddQuantity.go:76-131 | Adding quantity changes the caller's token by the quantity named third and keeps its type, properties and metadata |
| Metadata.BurnedReadsBack | builtInFunctions/dcdtNFTBurn.go:67-122 | A burn lowers the caller's token by the quantity named third, which it covers, keeps the rest, and leaves no record at zero |
| Metadata.SavedEntry | builtInFunctions/dcdtDataStorage.go:374-466 | What a save does to the entry of its key: a first or forced save writes it, any other refreshes it exactly where refreshing applies |
| MetaMoves.NftIsOneMove | builtInFunctions/dcdtNFTTransfer.go:206-321 | A single transfer inside a shard is one move of the amount named third, and receiver and sender read the sender's type, properties and metadata |
| MetaMoves.SendOneReads | builtInFunctions/multiDCDTNFTTransfer.go:381-433 | The same for one turn of a multi transfer |
| MetaMoves.NftArrives | builtInFunctions/dcdtNFTTransfer.go:141-191 | What the receiver of a delivered single transfer has: the token the payload spells or, for the zero marker, the amount; its metadata as accounts, entry and refreshing determine |
| MetaMoves.ItemArrives | builtInFunctions/multiDCDTNFTTransfer.go:168-208 | The same for one item of a delivered multi transfer: up to 32 bytes are an amount, more are a token |
| MetaMoves.NftEndToEnd | builtInFunctions/dcdtNFTTransfer.go:120-204 | From shard to shard, end to end: what arrives is the sender's token with type, properties and metadata and the amount sent, or the amount alone exactly where the sender's shard knows the metadata to be there and the amount is not one |
| Entries.StoredBySave | builtInFunctions/dcdtDataStorage.go:374-435 | A written entry marks exactly its own shard and the sender's as knowing the metadata |
| Entries.RejectedNft | builtInFunctions/dcdtDataStorage.go:598-653 | A failed single transfer stores the metadata of its token under the token's key, and nothing else changes |
| Entries.RejectedMulti | builtInFunctions/dcdtDataStorage.go:655-692 | A failed multi transfer stores, for every key it carries, the metadata of the last item that carries it |
| Entries.CreatedCounts | builtInFunctions/dcdtDataStorage.go:391-421 | After a creation the entry counts the quantity exactly if it is new and the owner's record had no metadata |
| Entries.AddedCounts | builtInFunctions/dcdtNFTAddQuantity.go:110-121 | Adding quantity raises what a counting entry counts by the quantity |
| Entries.BurnedCounts | builtInFunctions/dcdtNFTBurn.go:98-112 | Burning lowers it by the quantity; at zero it counts no more |
| Entries.SaveCounts | builtInFunctions/dcdtDataStorage.go:268-322 | After any save with its change of liquidity: whether the entry counts and how much, from the state before |
| Entries.ArrivedCounts | builtInFunctions/multiDCDTNFTTransfer.go:558-592 | After a credit from another shard a new entry counts what arrived, and one that counts that much more |
| Guards.SavesExactly | builtInFunctions/dcdtDataStorage.go:203-265 | A save is refused exactly if the token is frozen or it or its nonce paused, exemptions aside, or the collection frozen, or a shard to be marked is unknown |
| Guards.CreatesExactly | builtInFunctions/dcdtNFTCreate.go:103-212 | Exactly when a creation succeeds |
| Guards.AddsExactly | builtInFunctions/dcdtNFTAddQuantity.go:76-131 | Exactly when adding quantity succeeds |
| Guards.BurnsNftExactly | builtInFunctions/dcdtNFTBurn.go:67-122 | Exactly when burning pieces succeeds |
| Guards.UpdatesExactly | builtInFunctions/updateNFTAttributes.go:79-129 | Exactly when an update succeeds |
| Guards.FungibleExactly | builtInFunctions/dcdtTransfer.go:84-192 | Exactly when a fungible transfer succeeds, by what is asked of the sender where it lives and of the receiver where it lives |
| Guards.DeliversExactly | builtInFunctions/dcdtNFTTransfer.go:141-204 | Exactly when a single transfer is delivered |
| Guards.PausedAct | builtInFunctions/dcdtTransfer.go:287-311 | While a token is paused no creation, addition, burn, update, mint or fungible transfer of it succeeds |
| Guards.MultiPassed | builtInFunctions/multiDCDTNFTTransfer.go:258-379 | What a successful multi transfer has passed: fee, destination, and for every item its amount, length, restriction and pause |
| Guards.DeliveryPassed | builtInFunctions/multiDCDTNFTTransfer.go:143-222 | What a successful delivery has passed: its place, a payable receiver, and no paused token among the items |
| SendGuards.SendsNftExactly | builtInFunctions/dcdtNFTTransfer.go:206-321 | Exactly when a single transfer succeeds on the sender's shard, from the state and arguments before the call |
| SendGuards.SendsOneExactly | builtInFunctions/multiDCDTNFTTransfer.go:381-433 | Exactly when one turn of a multi transfer succeeds |
| Outputs.MultiEnds | builtInFunctions/multiDCDTNFTTransfer.go:515-556 | A multi transfer to another shard sends the gas left along exactly when a call follows and keeps it otherwise; inside the shard the call named behind the items runs on the receiver with all of it, or all remains |
| Outputs.NftEnds | builtInFunctions/dcdtNFTTransfer.go:361-400 | The same for a single transfer |
| Outputs.MultiReceiverEnds | builtInFunctions/multiDCDTNFTTransfer.go:237-255 | A delivered multi transfer with arguments behind its items calls the receiving contract: one transfer from caller to recipient with the gas provided, the locked gas and a text that parses to exactly the trailing call; otherwise none |
| Outputs.NftReceiverEnds | builtInFunctions/dcdtNFTTransfer.go:175-203 | The same for a single transfer |
| Outputs.MultiCallArrives | builtInFunctions/multiDCDTNFTTransfer.go:122-256 | The call that runs on delivery of an emitted multi transfer is the one written behind the items at the sender |
| Outputs.NftCallArrives | builtInFunctions/dcdtNFTTransfer.go:120-204 | The same for a single transfer |
| Outputs.FungibleEnds | builtInFunctions/dcdtTransfer.go:155-219 | Where gas and call of a fungible transfer go, case by case |
| Payloads.AlreadySentExactly | builtInFunctions/dcdtDataStorage.go:548-595 | The question whether the destination knows the metadata is answered by the marks, and leaves exactly one mark where there is an entry |
| Payloads.EncodedForms | builtInFunctions/multiDCDTNFTTransfer.go:484-513 | The argument loop spells every item in the form its metadata calls for, a second item of the same token included |
| Payloads.MultiForms | builtInFunctions/multiDCDTNFTTransfer.go:461-556 | In a multi transfer an NFT travels as its whole token exactly when its metadata is not known to be with the receiver, or its amount is one or longer than 32 bytes; otherwise the amount travels alone and free |
| Payloads.NftForms | builtInFunctions/dcdtNFTTransfer.go:323-360 | In a single transfer the sender's whole token travels, and is paid for, exactly when its metadata is not known to be there or the amount is one; otherwise the zero marker travels free |
| Wire.MultiWireRoundTrip | builtInFunctions/multiDCDTNFTTransfer.go:461-556 | For every list of transfers the receiver reads from the emitted text the same tokens, nonces, amounts, order and trailing call |
| Wire.NftWireRoundTrip | builtInFunctions/dcdtNFTTransfer.go:323-400 | The same for a single transfer, whole token or zero marker |
| Wire.FungibleWireRoundTrip | builtInFunctions/dcdtTransfer.go:194-250 | A contract's fungible transfer to another shard arrives there with its own arguments |
| Wire.DecodeSpelled | builtInFunctions/multiDCDTNFTTransfer.go:168-197 | Both payload forms decode to the amount sent, the whole form to the whole token: 32 bytes tell them apart |
| Emission.SendMultiEmits | builtInFunctions/multiDCDTNFTTransfer.go:258-379 | A multi transfer emits nothing inside its shard and one message across, which reads as exactly the amounts requested |
| Emission.SendNftEmits | builtInFunctions/dcdtNFTTransfer.go:206-321 | The same for a single transfer |
| TransferParser.AgreesWithSender | parsers/dcdtTransferParser.go:115-187 | On the sender's shard the parser reports what a multi transfer debits, the receiver and the call, exactly when the receiver's address is no uint64 |
| Examples.SmallAddressMisread | parsers/dcdtTransferParser.go:126-143 | A state and a multi transfer that goes through there and that the parser refuses: the receiver's address is a small number |
| TransferParser.AgreesWithReceiver | parsers/dcdtTransferParser.go:115-187 | On the receiver's shard it reports what is credited unless the count passes for an address; then it takes that argument for the receiver, and is wrong unless it is the receiver's own |
| Examples.CountMisread | parsers/dcdtTransferParser.go:126-143 | A delivery that goes through and whose count the parser takes for the receiver |
| NetworkReports.ReachableReported | parsers/dcdtTransferParser.go:41-187 | Over every run: of every message in flight the parser reports the receiver, the tokens, nonces, amounts and the call that its delivery reads; no count in flight passes for an address |
| NftReports.AgreesWithNft | parsers/dcdtTransferParser.go:85-113 | Single transfers sent: the parser reports what the sender's balance falls by and, inside the shard, the receiver's grows by; from the message to another shard it reports the same token, nonce, amount, receiver and call, which is what the receiver's side reads |
| NftReports.AgreesWithNftReceiver | parsers/dcdtTransferParser.go:85-113 | Single transfers received: the balance grows by the payload's value, and with the zero marker that is the amount the parser reports, whatever the other arguments |
| TransferParser.AgreesWithFungible | parsers/dcdtTransferParser.go:59-83 | Fungible transfers: the amount reported is what the balances change by |
| TransferParser.ParsesOwnMessages | parsers/dcdtTransferParser.go:115-187 | Whatever list was sent, the parser reads from the text of the message the amounts sent, the receiver and the call |
| TransferParser.ParseDCDTTransfers | parsers/dcdtTransferParser.go:41-57 | The parser with its loops and arrays computes the specified result for every function name and argument list |
| TransferParser.ParseItems | parsers/dcdtTransferParser.go:149-157 | The item loop fills the array with the items in order or stops at the first that cannot be unmarshalled |
| TransferParser.CreateNewTransfer | parsers/dcdtTransferParser.go:162-187 | One item, field by field |
| TxData.ParsePrint | parsers/callArgsParser.go:15-74 | Parsing undoes printing exactly for the non-empty function names without a separator |
| TxData.ParseData | parsers/callArgsParser.go:15-35 | The parser returns the function and all decoded arguments in order, or the first error |
| TxData.ParseArguments | parsers/callArgsParser.go:61-74 | The decoding loop |
| TxData.PrintCall | builtInFunctions/dcdtNFTTransfer.go:449-452 | The printing loop of emitted transfers prints function and arguments as the builder does |
| TxData.Builder.BuildCall | txDataBuilder/builder.go:28-89 | Appending byte arguments one by one and rendering gives the printed call |
| TxData.Builder.ToString | txDataBuilder/builder.go:36-43 | Rendering joins function and elements with the separator |
| TxData.Builder.AddInt64 | txDataBuilder/builder.go:108-113 | An integer element loses its sign |
| TxData.Builder.SetLast | txDataBuilder/builder.go:60-66 | The last element is replaced, or becomes the only one |
| TxData.SplitPrint | parsers/tokenize.go:8-16 | Splitting a printed call gives back its parts |
| Hex.DecodeEncode | parsers/tokenize.go:18-25 | Decoding undoes printing in base16, section 8 of RFC 4648 |
| StorageUpdates.ParseUndoesCreate | parsers/storageUpdatesParser.go:18-63 | Reading undoes printing exactly for the non-empty lists whose first offset is not empty |
| StorageUpdates.CreateDataFromStorageUpdate | parsers/storageUpdatesParser.go:50-63 | The printing loop joins offsets and data with the separator |
| StorageUpdates.GetStorageUpdates | parsers/storageUpdatesParser.go:18-47 | The reading loop decodes pairs in order or returns the first error |
| TokenId.KeyInjective | builtInFunctions/dcdtNFTCreate.go:269-271 | For valid identifiers and all nonces the key determines both, although nothing separates them |
| TokenId.TokenPrefixUnique | common.go:37-93 | Two valid identifiers at the front of one string are equal: the grammar makes keys unambiguous |
| TokenId.KeyAliasWithoutValidation | common.go:37-93 | Without validation an identifier can spell another token's key |
| TokenId.ExtractUndoesKey | builtInFunctions/logsAndEvents.go:82-96 | The extraction undoes the key exactly when no nonce byte is 0x2D; otherwise it returns the whole argument and 0, or a strictly smaller nonce |
| Storage.Handler.SaveToken | builtInFunctions/dcdtDataStorage.go:325-372 | The save in place: checks, metadata, deletion at zero, the reduced form on the account |
| Storage.Handler.SaveMetaData | builtInFunctions/dcdtDataStorage.go:374-435 | The entry written to the system account, with marks or Reserved as the flags say |
| Storage.Handler.RefreshMetaData | builtInFunctions/dcdtDataStorage.go:437-466 | Metadata of an entry without Reserved is refreshed, everything else stays |
| Storage.Handler.ForgetReservedOfOldToken | builtInFunctions/dcdtDataStorage.go:468-502 | Reserved is dropped exactly for a token whose account record carries metadata |
| Storage.Handler.AddToLiquidity | builtInFunctions/dcdtDataStorage.go:268-322 | The change of liquidity with its five outcomes |
| Storage.Handler.WasAlreadySent | builtInFunctions/dcdtDataStorage.go:548-595 | The answer about the destination's knowledge, and the mark it leaves |
| Storage.Handler.SaveMetaDataOfMessage | builtInFunctions/dcdtDataStorage.go:598-653 | Saving the metadata of a failed delivery |
| Storage.Handler.SaveMetaDataFromMulti | builtInFunctions/dcdtDataStorage.go:655-692 | The loop over the items of a failed multi transfer |
| Storage.Handler.TokenOnDestination | builtInFunctions/dcdtDataStorage.go:122-159 | The record completed with the metadata of the system account |
| Storage.Handler.TokenOnSender | builtInFunctions/dcdtDataStorage.go:78-92 | The same, refused where there is no record |
| Storage.Handler.AddToBalance | builtInFunctions/dcdtTransfer.go:252-285 | A fungible balance changed in place, checks before, deletion of empty records after |
| Storage.Handler.SaveRecord | builtInFunctions/dcdtTransfer.go:322-339 | A record with value zero and empty properties is deleted |
| Totals.SaveTokenWrites | builtInFunctions/dcdtDataStorage.go:325-372 | A save writes one record, which then holds the token's value, and touches no other key |
| Totals.AddToBalanceWrites | builtInFunctions/dcdtTransfer.go:252-285 | A balance changes by exactly the amount and is never negative; nothing else changes |
| SameShard.SaveMetaDataOfId | builtInFunctions/dcdtDataStorage.go:598-692 | Saving the metadata of a failed delivery leaves all accounts alone |
| Processes.ProcessCreate | builtInFunctions/dcdtNFTCreate.go:103-234 | Creation on the handler, equal to its specification for every input, errors included; gas remaining and fee make up the gas provided |
| Processes.ProcessAddQuantity | builtInFunctions/dcdtNFTAddQuantity.go:76-131 | Adding quantity on the handler, and the gas remaining |
| Processes.ProcessBurn | builtInFunctions/dcdtNFTBurn.go:67-122 | Burning on the handler, and the gas remaining |
| Processes.ProcessUpdateAttributes | builtInFunctions/updateNFTAttributes.go:79-129 | Updating attributes on the handler, and the gas remaining after two subtractions that may wrap |
| Processes.ProcessSetFrozen | builtInFunctions/dcdtFreezeWipe.go:136-153 | Freezing and thawing on the handler |
| Processes.ProcessWipe | builtInFunctions/dcdtFreezeWipe.go:102-125 | Wiping on the handler: the record goes at the argument |
| Processes.RemoveLiquidity | builtInFunctions/dcdtFreezeWipe.go:127-134 | The liquidity goes at what is extracted from the argument |
| Processes.ProcessMintOrBurn | builtInFunctions/dcdtLocalMint.go:70-108 | Local mint and local burn on the handler, and the gas remaining |
| TransferProcesses.ProcessFungibleTransfer | builtInFunctions/dcdtTransfer.go:84-219 | The fungible transfer on the handler: both legs and the output |
| TransferProcesses.AddToDestination | builtInFunctions/dcdtNFTTransfer.go:402-436 | The credit; afterwards the token object carries the receiver's new balance |
| TransferProcesses.TakeFromSender | builtInFunctions/dcdtNFTTransfer.go:248-255 | The debit on the one token object, which then carries the amount on its way |
| TransferProcesses.TransferOne | builtInFunctions/multiDCDTNFTTransfer.go:381-433 | One item on the sender's shard |
| TransferProcesses.TransferItems | builtInFunctions/multiDCDTNFTTransfer.go:311-357 | The sender's loop with its list of live token objects: no later turn changes an earlier object |
| TransferProcesses.EncodeArguments | builtInFunctions/multiDCDTNFTTransfer.go:468-513 | The argument loop, which pays for every whole token |
| TransferProcesses.CreateMultiOutput | builtInFunctions/multiDCDTNFTTransfer.go:461-556 | The output of a multi transfer: message, contract call or nothing |
| TransferProcesses.SendMultiOnSender | builtInFunctions/multiDCDTNFTTransfer.go:258-379 | The multi transfer on the sender's shard |
| TransferProcesses.ReceiveItem | builtInFunctions/multiDCDTNFTTransfer.go:168-208 | One turn of the receiver's loop |
| TransferProcesses.ReceiveMultiOnReceiver | builtInFunctions/multiDCDTNFTTransfer.go:143-255 | The multi transfer on the receiver's shard |
| TransferProcesses.ProcessMultiTransfer | builtInFunctions/multiDCDTNFTTransfer.go:122-256 | Both sides of the multi transfer |
| TransferProcesses.CreateNftOutput | builtInFunctions/dcdtNFTTransfer.go:323-400 | The output of a single transfer |
| TransferProcesses.SendNftOnSender | builtInFunctions/dcdtNFTTransfer.go:206-321 | The single transfer on the sender's shard |
| TransferProcesses.ReceiveNftOnReceiver | builtInFunctions/dcdtNFTTransfer.go:141-203 | The single transfer on the receiver's shard |
| TransferProcesses.ProcessNftTransfer | builtInFunctions/dcdtNFTTransfer.go:120-204 | Both sides of the single transfer |
| TransferProcesses.Output.Finish | builtInFunctions/multiDCDTNFTTransfer.go:520-556 | The common end of the sender-side functions |
| TransferProcesses.Output.PayForData | builtInFunctions/multiDCDTNFTTransfer.go:497-501 | The charge for the bytes of a marshalled token |
| DeleteMetadata.DeleteAll | builtInFunctions/dcdtDeleteMetadata.go:107-145 | For all arguments for which it ends, wrapped counters included: deletion returns the first error or removes exactly the keys of the groups the code reaches |
| DeleteMetadata.EndsExactly | builtInFunctions/dcdtDeleteMetadata.go:107-194 | The three nested loops, turn by turn, end exactly when no group is reached twice and no interval reached ends at 2^64 - 1 |
| DeleteMetadata.ReadsAsWritten | builtInFunctions/dcdtDeleteMetadata.go:106-145 | Where no group's end wraps, the call ends and reads the groups as written; a call that ends with success does so only then |
| DeleteMetadata.DeleteIntervals | builtInFunctions/dcdtDeleteMetadata.go:147-169 | The loop over the intervals of a token |
| DeleteMetadata.DeleteInterval | builtInFunctions/dcdtDeleteMetadata.go:171-194 | The loop over the nonces of an interval |
| DeleteMetadata.RemovesExactlyListed | builtInFunctions/dcdtDeleteMetadata.go:107-194 | The entry of a nonce of a valid token goes if and only if the list names it; what stays is unchanged |
| DeleteMetadata.EndlessInterval | builtInFunctions/dcdtDeleteMetadata.go:184-191 | The loop over nonces goes on forever exactly when the interval ends at 2^64 - 1 |
| DeleteMetadata.EndlessGroup | builtInFunctions/dcdtDeleteMetadata.go:118-137 | Exactly two numbers of intervals make the first group its own successor, and then the call does not end |
| DeleteMetadata.EndlessPair | builtInFunctions/dcdtDeleteMetadata.go:118-137 | Seven arguments whose second group wraps back to the first: the loops never end |
| DeleteMetadata.EndlessArguments | builtInFunctions/dcdtDeleteMetadata.go:118-137 | The same with 2^63 - 3 or 2^64 - 3 intervals spelled out |
| AddMetadata.AddMetadataEntries | builtInFunctions/dcdtDeleteMetadata.go:197-258 | The loop that puts metadata back, equal to its specification |
| AddMetadata.AddFromWrites | builtInFunctions/dcdtDeleteMetadata.go:228-249 | Entries that have metadata are never touched; keys not named stay; value, properties and Reserved stay |
| AddMetadata.AddedAt | builtInFunctions/dcdtDeleteMetadata.go:209-250 | Each triple ends up as the metadata of its own key |
| AddMetadata.AddedOnce | builtInFunctions/dcdtDeleteMetadata.go:233-235 | No identifier and nonce is added twice in one call |
| DeleteLists.DeletesAsSpelled | builtInFunctions/dcdtDeleteMetadata.go:107-194 | A list written out token by token, with the number of intervals and the ends of each: the call ends, and removes the entry of a nonce of a valid token if and only if a group with this token has an interval with this nonce |
| Handover.HandoverOverRuns | builtInFunctions/dcdtNFTCreateRoleTransfer.go:53-244 | Over every run with any number of cross-shard handovers exactly one account or message carries the right to create, and the nonces issued grow strictly |
| Handover.HandoverKeepsExactly | builtInFunctions/dcdtNFTCreateRoleTransfer.go:87-165 | A handover keeps the right in one place exactly when it starts at the current owner and crosses shards |
| Handover.HandsOverExactly | builtInFunctions/dcdtNFTCreateRoleTransfer.go:87-165 | One handover: when it goes through, what it takes from the old owner and gives to a next owner in the same shard, and the message with token and old nonce it sends; nothing else changes |
| Handover.TakesOverExactly | builtInFunctions/dcdtNFTCreateRoleTransfer.go:217-244 | A handover message goes through exactly with two arguments, and gives the nonce named second and the create role, once if it was not listed |
| Handover.FirstGrantCarries | builtInFunctions/dcdtRoles.go:62-88 | Setting the create role for the first time makes its account the one carrier |
| Handover.CarrierUnique | builtInFunctions/dcdtNFTCreateRoleTransfer.go:87-165 | One carrier means one: never two accounts, never an account and a message |
| Handover.SameShardHandoverRepeats | builtInFunctions/dcdtNFTCreateRoleTransfer.go:117-164 | Why it has to cross shards: inside one shard the leftover message resets the nonce, and a nonce is issued twice |
| Handover.ArrivingFromSystemRefused | builtInFunctions/dcdtNFTCreateRoleTransfer.go:70-97 | A handover message executed in the name of the system contract is refused and stays in flight |
| CreateRole.EndowIdempotent | builtInFunctions/dcdtNFTCreateRoleTransfer.go:217-244 | Receiving the same handover twice in a row is receiving it once |
| CreateRole.SurrenderedStillCreates | builtInFunctions/dcdtNFTCreateRoleTransfer.go:167-178 | The old owner can still create exactly when it listed the role at least twice |
| CreateRole.RolesChangedExactly | builtInFunctions/dcdtRoles.go:44-118 | Setting appends the roles named, unsetting takes each away once and leaves all others, and the nonce stays unless the multi-shard role is named |
| CreateRole.UnsetUndoesSet | builtInFunctions/dcdtRoles.go:44-118 | Unsetting what was set gives back the list, up to its order |
| CreateRole.Account.Surrender | builtInFunctions/dcdtNFTCreateRoleTransfer.go:99-115 | The first half of a handover on the account |
| CreateRole.Account.Endow | builtInFunctions/dcdtNFTCreateRoleTransfer.go:180-197 | The second half, which lists the role at most once |
| CreateRole.Account.SaveLatestNonce | builtInFunctions/dcdtNFTCreate.go:250-267 | The nonce read back is the nonce saved |
| CreateRole.Account.ChangeRoles | builtInFunctions/dcdtRoles.go:44-96 | Setting and unsetting roles; naming the multi-shard role restarts the nonce in both cases |
| NonceRanges.NoncesNeverMeet | builtInFunctions/dcdtRoles.go:101-105 | Over every run in which accounts are granted the multi-shard role at any time before they first create: each nonce issued is the integer sum of its creator's start and its number of creations, so that none wraps, and none is issued twice if creators differ in the last address byte and create at most 2^56 - 1 times each |
| NonceRanges.RangeTight | builtInFunctions/dcdtRoles.go:98-105 | One more creation meets the first nonce of the next last byte |
| NonceRanges.GrantJoins | builtInFunctions/dcdtRoles.go:72-84 | A grant during the run puts its account at the start of its range, whatever its nonce was, while all others count on |
| NonceRanges.RegrantRepeats | builtInFunctions/dcdtRoles.go:72-88 | Why grants come first: setting or unsetting the role later restarts the nonce, and a nonce is issued twice |
| Roles.RemoveEachCounts | builtInFunctions/dcdtRoles.go:107-118 | Deleting a list of roles takes each away once, as often as it is named and present |
| Roles.RoleList.DeleteRoles | builtInFunctions/dcdtRoles.go:107-118 | The deletion in place, by shifting and truncation |
| Roles.RoleList.DoesRoleExist | builtInFunctions/dcdtRoles.go:120-127 | The search finds the first occurrence, or none exists |
| Roles.RoleList.AddNew | builtInFunctions/dcdtTransferRole.go:119-138 | The nested loops append every missing address and check the bound |
| Roles.AddMissingAdds | builtInFunctions/dcdtTransferRole.go:119-132 | The result keeps the list in front, holds exactly old and new addresses, and never repeats one |
| Roles.AcceptedWithinBound | builtInFunctions/dcdtTransferRole.go:133-135 | An addition is accepted exactly when old and new addresses together are at most the maximum |
| KeyValue.SavedAndPaid | builtInFunctions/keyValueStorage.go:54-127 | With the gas fix: pairs applied in order, no protected key changed, and the gas taken is the cost measured pair by pair, exactly when that cost is below 2^64 |
| KeyValue.SucceedsExactly | builtInFunctions/keyValueStorage.go:54-127 | With the gas fix and a cost below 2^64 a call succeeds exactly for an account that is no contract and acts for itself, with pairs of arguments, none for a protected key, and gas that covers the cost |
| KeyValue.AppliedLast | builtInFunctions/keyValueStorage.go:70-108 | The last pair for a key decides its value |
| KeyValue.LastChangeChecked | builtInFunctions/keyValueStorage.go:84-98 | The gas is checked only when a value changes; a call that ends with a change is within its gas |
| KeyValue.RemainingUnfixed | builtInFunctions/keyValueStorage.go:113-127 | Without the fix a successful call takes its cost, measured pair by pair, exactly when the gas provided covers that cost |
| KeyValue.UnfixedCreatesGas | builtInFunctions/keyValueStorage.go:113-119 | Without the fix a call that changes nothing can leave more gas than it was given |
| KeyValue.UserAccount.ProcessSaveKeyValue | builtInFunctions/keyValueStorage.go:54-127 | The loop on the account, equal to its specification |
| Reindex.IndicesGloballyDistinct | output.go:205-227 | Over any number of successive outputs no index is handed out twice, the order inside an output is kept, and the provider ends above every index |
| Reindex.ReindexedWithin | output.go:205-227 | One renumbering hands out indices between the provider's old and new index |
| Reindex.VMOutput.ReindexTransfers | output.go:205-227 | The renumbering in place, for every order in which the accounts are visited |
| Reindex.VMOutput.NextAvailable | output.go:191-202 | The next index is one above the largest |

## Left out

- NetworkLiquidity.LiquidityOverRuns: not claimed for records that keep metadata on the account, for wiped nonces with a byte 0x2D (see Limits.WipeKeepsExactly) and for runs with DCDTDeleteMetadata or addMetadata steps, because there the counter does not match.
- NetworkSupply.SupplyOverRuns: a fungible transfer that crosses shards with its transaction, and not as a message of this library, counts as issued where it leaves and arrives. Messages given up after a failed delivery stay counted; the node's return transaction is not part of this model.
- NetworkFrozen.FrozenOverRuns: steps with ReturnCallAfterError, records of the system contract and creations at the frozen nonce are excluded, because the code exempts them.
- Handover.HandoverOverRuns: handovers inside one shard, by an account that is not the owner, or of a role listed twice are excluded, because the code then forks the right (see Handover.SameShardHandoverRepeats, CreateRole.SurrenderedStillCreates and Handover.HandoverKeepsExactly); so is a wrap of the nonce itself. Addresses are taken to be longer than the eight bytes of a nonce.
- DeleteMetadata.DeleteAll: slices have fewer than 2^63 entries; calls that do not end are the subject of DeleteMetadata.EndsExactly. Where a group's end wraps forward, the code skips or repeats arguments; what it removes is stated for the groups it reaches, not for those written.
- NonceRanges.NoncesNeverMeet: creators that were never granted the multi-shard role, grants after a first creation (see NonceRanges.RegrantRepeats) and handovers of the token itself are excluded, because they set the nonce otherwise.
- Reindex.VMOutput.ReindexTransfers: states no contents after an error, when part of the output is already renumbered.
- Storage.Handler.SaveToken: the marshalled bytes it returns are not modelled; storage holds tokens, and marshalling is a parameter of which only the round trip and the length above 32 bytes are used.
- TransferParser.AgreesWithReceiver: where the count passes for an address and equals the receiver's, the two readings may agree by coincidence of the arguments, and nothing is claimed; no message of the library gets there (NetworkReports.ReachableReported).
- GasBounds.MultiGasBalances: for lists that name a token twice no condition is given, because the size of its record then depends on the earlier items; Gas.MultiGasConserved covers them.
- Processes.ProcessCreate: the latest nonce is a parameter here; reading and saving it is modelled in CreateRole. The return data are left out.
- Metadata.AddedReadsBack: nothing is claimed of the metadata read back where the entry of the key has none or goes, because it then depends on what the account keeps; the same holds for Metadata.BurnedReadsBack and the lemmas of MetaMoves.
- SendGuards.SendsOneExactly: a whole multi transfer succeeds exactly if all its turns and its output do, each from the state the one before left; no condition on the first state alone is given.
- Call type, value and index of an output transfer (the index is the subject of Reindex.dfy).
- Which keys are paused, limited in transfer or payable, and whether roles permit an action, are parameters of a call; global settings and role checks behind them are not modelled.
- The constant key prefixes are dropped; the system account is kept apart from the other accounts, so its own address is never a sender or receiver.
- Errors of the database and of the accounts adapter, nil checks, call values, mutexes, SetNewGasConfig, the container and the epoch notifications.
- Log entries, return codes, relayed transactions and the dataField formatting.
- Guardian, user name, owner change, developer rewards, migration of data tries: single checks around interfaces whose code is elsewhere.
- The address checks of DCDTDeleteMetadata and of the transfer-role function, and the merging of output accounts: single comparisons and sums.
- Constants of other packages: the length limit of minted values, the protected prefix and the gas schedule are parameters; the maximal royalty is 10000 as a comment of the creation function says; role and function names are spelled as their constants are named.
- Slices share memory when appended to; keys and arguments are values here.
