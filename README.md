# Exocore indexer core, modelled in Dafny

This project models the event-driven projection engine of the Exocore chain indexer. Each chain module (assets, delegation, operator, dogfood, epochs, exomint, avs) turns a transaction's events, a block's BeginBlock and EndBlock events, or a genesis state into writes on relational tables. The model has two layers.

- **The persistence layer** (`database/*.go`). Each file is a module (`AssetsDb`, `DelegationDb`, `OperatorDb`, `DogfoodDb`, `EpochsDb`, `ExomintDb`, `AvsDb`). In each, a `Store` class has one field per table, keyed on the SQL conflict columns.
  - Every store method is one statement: an overwrite upsert, an insert-if-absent, an additive upsert, a height- or epoch-guarded upsert, a keyed update or delete, a set insert or delete, or a history append.
  - A statement either takes effect or fails with a store error and changes nothing.
  - Each file also has a pure `Apply(tables, write)`. Every method's contract ties its new state to that function, and the lemmas about `Apply` state what the SQL promises: what is overwritten, what is kept, what is idempotent, and what "first write wins" or "last write wins" means.
- **The projectors** (`modules/*/handle_{tx,block,genesis,common}.go`). Each chain module is a module with a `Module` class holding its store. A handler's intended behaviour is a pure `Script`: the writes it sends, in order, and the error that stops it, if any.
  - Each handler method is proved to perform exactly a prefix of its script: all of it on success, or the writes up to a failing store call.
  - The lemmas then describe the scripts. They cover which attribute becomes which column, handler order, early exit on a missing attribute, the native-asset special cases, the slashing fan-out and the genesis loads.

The shared pieces live in their own modules:
- `Replay`: scripts, sequencing with early exit, and replaying a batch of writes.
- `Events`: selecting events by type and reading attributes.
- `Decimal`: `%d`, `math.Int` and `LegacyDec` string forms and their parsers, with round-trip proofs.
- `Text`: ASCII lower-casing.
- `Wrappers`: results and errors.
- `AssetsTypes`, `DelegationTypes` and `OperatorTypes`: the constructors of `types/*.go`.

The chain's query sources, the codec, time and key parsing, and the hex and bech32 key encodings are function-valued parameters. The model does not interpret them.

## Model

| member | source | states |
|---|---|---|
| AvsDb.Store.SaveAvsAddr | database/avs.go:7-17 | on success the address joins the AVS set, and an address already stored stays as it is; on a store error the result is `Fail(DbError)` and nothing changes |
| AvsDb.Store.SaveChainIdToAvsAddr | database/avs.go:20-31 | on success the chain id maps to the given address and any earlier mapping is replaced; on a store error nothing changes |
| AvsDb.ApplyAllShape | database/avs.go:7-31 | after any batch of statements the AVS set is the old set plus exactly the inserted addresses, and each chain id maps to the address of its last mapping statement or keeps its old mapping |
| AvsDb.ReplayIdempotent | database/avs.go:7-31 | running any batch of AVS statements a second time leaves the same tables as running it once |
| AvsModule.Module.HandleAvsCreatedEvents | modules/avs/handle_tx.go:23-35 | the store holds exactly the first `n` planned inserts, one per AVS-created event in order; a missing address attribute ends the loop with that error, and a rejected insert ends it with `Fail(DbError)` |
| AvsModule.Module.HandleChainAvsCreatedEvents | modules/avs/handle_tx.go:38-54 | one chain-to-AVS mapping per chain-AVS-created event, in order; the chain id is read before the address, and the first missing attribute or rejected statement ends the loop |
| AvsModule.Module.HandleTx | modules/avs/handle_tx.go:12-20 | AVS creations are stored before chain-AVS mappings, and the mappings are not attempted once the creations failed |
| AvsModule.Module.HandleDogfoodAvsCreationEvents | modules/avs/handle_block.go:23-44 | for each dogfood-AVS-created event both attributes are read first, then the address is inserted and then the chain's mapping to it is saved |
| AvsModule.Module.HandleBlock | modules/avs/handle_block.go:13-20 | only BeginBlock events are read, through the dogfood-AVS loop |
| AvsModule.Module.HandleGenesis | modules/avs/handle_genesis.go:15-32 | an undecodable state fails with `DecodeError` and writes nothing; otherwise every AVS address, then every chain mapping, is attempted in order, rejected statements are skipped, and the result is `Pass` |
| AvsModule.GenesisAddressesLowerCase | modules/avs/handle_genesis.go:23-30 | every address the genesis load writes is lower case, whatever the genesis file spelled |
| AvsModule.Module.SaveAvsInfos | modules/avs/handle_genesis.go:23-26 | the AVS addresses are saved lower-cased, one attempt per info in order; the tables end as the accepted saves among them left them, and a rejected save does not stop the loop |
| AvsModule.Module.SaveChainIdInfos | modules/avs/handle_genesis.go:27-30 | each chain id is mapped to its lower-cased address, one attempt per info in order after the earlier saves; the tables end as the accepted saves left them, and a rejected save does not stop the loop |
| AvsModule.AvsCreatedWritesFromEvents | modules/avs/handle_tx.go:23-35 | every write of the AVS-creation pass inserts the address attribute of an AVS-created event of the transaction |
| AvsModule.ChainAvsWriteAt | modules/avs/handle_tx.go:39-51 | the i-th chain mapping saved is the chain id and address the i-th chain-AVS event decodes to |
| AvsModule.ChainAvsCreatedWritesFromEvents | modules/avs/handle_tx.go:37-51 | every write of the chain-mapping pass saves the chain id and address of a chain-AVS event of the transaction |
| AvsModule.TxWritesFromEvents | modules/avs/handle_tx.go:12-54 | every row the transaction handler writes is an AVS insert or a chain mapping taken from an event of the transaction of the matching type |
| AvsModule.TxReplayIdempotent | modules/avs/handle_tx.go:12-54 | processing a transaction's statements twice leaves the same rows as processing them once |
| ExomintDb.NewMintHistory | types/exomint.go:33-43 | each field of the mint history is the argument of the same name |
| ExomintDb.Store.SaveExomintParams | database/exomint.go:11-31 | a parameter set that cannot be encoded fails with `EncodeError` and writes nothing; otherwise the single row is replaced exactly when the stored height is at most the new height; a store error changes nothing |
| ExomintDb.Store.AppendMintHistory | database/exomint.go:38-52 | on success the row for (epoch id, epoch number) holds the new height, amount and denomination, replacing an earlier row for the same epoch; a store error changes nothing |
| ExomintDb.ParamsKeepHighest | database/exomint.go:17-23 | after any batch the parameter row is the last one written at the greatest height seen (stored row included), and its height is that greatest height |
| ExomintDb.TopAttained | database/exomint.go:17-23 | the greatest height is that of the stored row or of some parameter statement in the batch |
| ExomintDb.ParamsHeightNeverDecreases | database/exomint.go:20-23 | no statement lowers the height of a stored parameter row |
| ExomintDb.StaleParamsIgnored | database/exomint.go:23 | parameters older than the stored row leave the tables unchanged, whatever their content |
| ExomintDb.HistoryShape | database/exomint.go:39-45 | after any batch each (epoch id, epoch number) holds the row of its last history statement or keeps its old row; other epochs are untouched |
| ExomintDb.ReplayIdempotent | database/exomint.go:17-45 | running any batch of exomint statements twice leaves the same tables as running it once |
| ExomintModule.Module.SaveMintHistory | modules/exomint/handle_block.go:27-60 | the store holds the first `n` planned history rows, one per mint event in order; a missing attribute, an epoch number that is not a 64-bit integer, or a rejected statement ends the loop with that error |
| ExomintModule.Module.HandleBlock | modules/exomint/handle_block.go:17-24 | only BeginBlock events are read, at the block's height |
| ExomintModule.MintScriptShape | modules/exomint/handle_block.go:30-57 | the planned rows are exactly the decoded mint events before the first bad one, each tagged with the block height, and the handler stops with that event's error |
| ExomintModule.DecodeMintRoundTrip | modules/exomint/handle_block.go:32-54 | an event carrying amount, epoch id, a base-10 epoch number in the 64-bit range and a denomination decodes to exactly those values |
| ExomintModule.DecodeMintFound | modules/exomint/handle_block.go:32-54 | an event whose four attributes are found decodes to them when its epoch number parses, and stops with the parse error otherwise |
| ExomintModule.BadEpochNumberRejected | modules/exomint/handle_block.go:44-47 | an epoch number that is not a 64-bit base-10 integer stops the event with a parse error, even when the denomination is missing too |
| ExomintModule.BlockReplayIdempotent | modules/exomint/handle_block.go:52-57 | indexing the same block twice leaves the same mint history and parameters |
| EpochsDb.Store.SaveEpochState | database/epochs.go:48-70 | on success a state is stored when its identifier is new or its epoch is strictly later than the stored one, and otherwise the table is unchanged; a store error changes nothing |
| EpochsDb.Store.SaveEpochDefinitions | database/epochs.go:23-35 | one insert-if-absent per epoch in order; the first rejected insert ends the loop and the earlier ones stay |
| EpochsDb.Store.SaveEpochStates | database/epochs.go:38-45 | one guarded state write per epoch in order, returning at the first error |
| EpochsDb.Store.SaveEpochs | database/epochs.go:11-19 | all definitions are written before any state, and no state is written unless every definition was |
| EpochsDb.ApplyAllDominates | database/epochs.go:24-61 | after any batch a stored definition is never changed, a stored state's epoch never goes down, and every written identifier has a definition or a state at least as late as the one written |
| EpochsDb.CoveredUnchanged | database/epochs.go:27-61 | statements already covered by the tables (known identifiers, no later epochs) change nothing |
| EpochsDb.ReplayIdempotent | database/epochs.go:24-61 | running any batch of epoch statements twice leaves the same tables as running it once |
| EpochsDb.StaleStateIgnored | database/epochs.go:60-61 | a state whose epoch is not later than the stored one is ignored, whatever else it carries |
| EpochsModule.Module.SaveEpochStates | modules/epochs/handle_block.go:24-43 | one guarded state write per epoch-end event in order, with the state the chain reports at this height; a missing identifier, a failed query or a rejected statement ends the loop |
| EpochsModule.Module.HandleBlock | modules/epochs/handle_block.go:14-21 | only BeginBlock events are read, at the block's height |
| EpochsModule.EpochStatesScriptShape | modules/epochs/handle_block.go:28-41 | the planned writes are exactly the chain's states for the epoch-end events before the first bad one, and the handler stops with that event's error; events of other types write nothing |
| EpochsModule.BlockReplayIdempotent | modules/epochs/handle_block.go:28-41 | indexing the same block twice with the same chain answers leaves the same states |
| DogfoodDb.Store.SaveDogfoodParams | database/dogfood.go:15-41 | on success the single parameters row holds the given parameters and height, whatever height it held before; a store error changes nothing |
| DogfoodDb.Store.SaveOptOutExpiry | database/dogfood.go:44-61 | on success the operator's opt-out is scheduled for the epoch, one row per operator, keeping a completion height it already had |
| DogfoodDb.Store.CompleteOptOuts | database/dogfood.go:64-77 | on success every opt-out of that epoch gets the completion height; no row is added |
| DogfoodDb.Store.SaveConsensusAddrToPrune | database/dogfood.go:80-95 | on success the consensus address is scheduled for pruning at the epoch, one row per address |
| DogfoodDb.Store.CompleteConsensusAddrsPruning | database/dogfood.go:98-111 | on success every address scheduled for that epoch gets the completion height |
| DogfoodDb.Store.SaveUndelegationMaturity | database/dogfood.go:114-129 | on success the undelegation record is scheduled to mature at the epoch, one row per record key |
| DogfoodDb.Store.MatureUndelegations | database/dogfood.go:132-145 | on success every undelegation scheduled for that epoch gets the completion height |
| DogfoodDb.Store.SaveLastTotalPower | database/dogfood.go:148-162 | on success the single last-total-power row holds the value; a store error changes nothing |
| DogfoodDb.CompletedMarksEpoch | database/dogfood.go:66-136 | completing an epoch marks exactly the rows scheduled for it, at the given height; no row is added or removed and other rows are untouched |
| DogfoodDb.RescheduleKeepsCompletion | database/dogfood.go:50-119 | rescheduling a key replaces its epoch but keeps its completion height, since the upsert sets only the epoch; other keys are untouched |
| DogfoodDb.ParamsLastWins | database/dogfood.go:19-26 | the parameters row has no height guard: the last save wins, even at a lower height |
| DogfoodDb.SchedulesIndependent | database/dogfood.go:44-145 | a statement on one schedule table leaves the other two unchanged |
| DogfoodDb.ApplySchedule | database/dogfood.go:47-119 | a scheduling statement changes only its own table, by scheduling the key, and leaves parameters, power and calls alone |
| DogfoodDb.SchedulesShape | database/dogfood.go:44-129 | after a batch of scheduling statements each key holds the epoch of its last statement and the completion height it had before the batch |
| DogfoodDb.SchedulesKeepOthers | database/dogfood.go:44-129 | scheduling statements leave the parameters, the last total power and the external calls unchanged |
| DogfoodDb.ScheduleReplayIdempotent | database/dogfood.go:44-129 | running a batch of scheduling statements twice leaves the same tables as running it once |
| DogfoodModule.FirstBare | modules/dogfood/handle_block.go:53-60 | the index of the first last-total-power event without attributes, the first event on which reading `Attributes[0]` panics |
| DogfoodModule.PowerWritesNext | modules/dogfood/handle_block.go:55-58 | each last-total-power event adds one save of its first attribute's value, in order |
| DogfoodModule.VotingPowersOf | modules/dogfood/handle_block.go:75-81 | one voting power per validator, with the validator's consensus address and power, all at the block height |
| DogfoodModule.AllEntriesConcat | modules/dogfood/handle_genesis.go:75-111 | flattening two runs of epoch lists is flattening each and concatenating |
| DogfoodModule.AllEntriesNext | modules/dogfood/handle_genesis.go:75-85 | the pairs of the first `i + 1` epoch lists are those of the first `i`, then epoch `i`'s keys |
| DogfoodModule.AllEntriesPrefix | modules/dogfood/handle_genesis.go:75-85 | the pairs of a prefix of the epoch lists are a prefix of all the pairs |
| DogfoodModule.Module.SaveScheduled | database/dogfood.go:44-129 | the save of one schedule entry, on the table of the given kind; a store error changes nothing |
| DogfoodModule.Module.CompleteScheduled | database/dogfood.go:64-145 | the completion of one epoch, on the table of the given kind; a store error changes nothing |
| DogfoodModule.Module.HandleScheduledEvents | modules/dogfood/handle_tx.go:29-97 | the store holds the first `n` planned schedule saves, one per event of the table's type in order; a missing key or epoch attribute, or a rejected save, ends the loop with that error |
| DogfoodModule.Module.HandleTx | modules/dogfood/handle_tx.go:14-25 | opt-outs began, then pruning scheduled, then maturities scheduled; each loop runs only when the previous one ran to the end |
| DogfoodModule.Module.HandleLastTotalPowerUpdated | modules/dogfood/handle_block.go:53-60 | each last-total-power event saves its first attribute's value; rejected saves are ignored; an event without attributes panics with "index out of range" after the earlier saves |
| DogfoodModule.Module.VotingPowers | modules/dogfood/handle_block.go:75-81 | the voting powers built are exactly one per validator at the height |
| DogfoodModule.Module.HandleValidatorSetChange | modules/dogfood/handle_block.go:63-86 | without a last-total-power event nothing happens; otherwise the validators at the height are queried and their voting powers saved in one call; a failed query is an error before any write |
| DogfoodModule.Module.HandleCompletionEvents | modules/dogfood/handle_block.go:89-133 | the store holds the first `n` planned completions, each event's epoch completed at the block height, in order; a missing epoch or a rejected statement ends the loop |
| DogfoodModule.Module.HandleBlock | modules/dogfood/handle_block.go:20-50 | EndBlock's last total power and validator set, then BeginBlock's opt-outs finished, addresses pruned and undelegations matured, each step only when the previous ones ran to the end |
| DogfoodModule.Module.BuildGenesisValidators | modules/dogfood/handle_genesis.go:39-59 | the validator rows and voting-power rows are built in order; the first key that cannot be wrapped or converted returns an error, and a power whose token amount does not fit an int64 panics in `Int64()` |
| DogfoodModule.Module.GenesisValidatorRowsErr | modules/dogfood/handle_genesis.go:41-49 | a failure among the first validators fails the whole list with the same error |
| DogfoodModule.Module.SaveSchedules | modules/dogfood/handle_genesis.go:75-111 | one save per (epoch, key) pair of the nested schedule, in order, returning at the first rejected save |
| DogfoodModule.Module.HandleGenesis | modules/dogfood/handle_genesis.go:18-120 | an undecodable section fails before any write; then parameters, validators, voting powers, the three schedules and the last total power are saved in order, and the first error ends the load |
| DogfoodModule.ScheduledScriptShape | modules/dogfood/handle_tx.go:29-97 | a scheduling loop saves exactly the (epoch, key) of its events before the first one missing an attribute, and stops with that attribute's error |
| DogfoodModule.CompletionScriptShape | modules/dogfood/handle_block.go:89-133 | a completion loop marks exactly the epochs of its events before the first one without an epoch, at the block height, and stops with the missing-epoch error |
| DogfoodModule.OnlySchedulesThen | modules/dogfood/handle_tx.go:14-25 | chaining two scheduling-only handlers gives a scheduling-only handler |
| DogfoodModule.TxReplayIdempotent | modules/dogfood/handle_tx.go:14-97 | a transaction only schedules rows, so indexing it twice leaves the tables as after indexing it once |
| DogfoodModule.PowerWritesLastWins | modules/dogfood/handle_block.go:55-58 | after a run of last-total-power saves the row holds the last value and no other table changes |
| DogfoodModule.LastTotalPowerOutcome | modules/dogfood/handle_block.go:53-60 | the handler passes exactly when every event has an attribute and otherwise panics |
| DogfoodModule.LastTotalPowerTables | modules/dogfood/handle_block.go:53-60 | the handler changes only the power row, which ends as some event's first value or unchanged |
| DogfoodModule.LastTotalPowerLastWins | modules/dogfood/handle_block.go:53-60 | when every event has an attribute and every save took effect, the power row holds the last event's value |
| DogfoodModule.GenesisValidatorRowsShape | modules/dogfood/handle_genesis.go:39-59 | the rows exist exactly when every key can be wrapped and converted and every power in tokens fits an int64; then validator `i` has the derived address and key, and voting power `i` has the power in tokens at the initial height |
| DogfoodModule.AllEntriesMembers | modules/dogfood/handle_genesis.go:75-111 | every (epoch, key) pair of the nested schedule is saved with the epoch in base 10, and nothing else is |
| DogfoodModule.GenesisScriptShape | modules/dogfood/handle_genesis.go:28-117 | with readable keys the load writes params at the initial height, validators, voting powers, the three flattened schedules and the last total power in base 10, in that order |
| OperatorDb.DetailScript | database/operator.go:14-39 | a commission time that does not parse stops with a parse error and sends nothing; otherwise one operator upsert carrying the parsed time |
| OperatorDb.Store.SaveOperatorDetail | database/operator.go:12-46 | a bad commission time fails with `ParseError` and changes nothing; otherwise on success the earnings address's row holds the six other columns of the operator, and a store error changes nothing |
| OperatorDb.Store.SaveOperatorConsKey | database/operator.go:49-61 | on success the (operator, chain) row holds the new key and address, keeping its previous key and removal mark |
| OperatorDb.Store.SaveOptedState | database/operator.go:64-91 | on success the (operator, AVS) row holds the slash contract, both heights and the jailed flag |
| OperatorDb.Store.SaveOperatorUSDValue | database/operator.go:94-120 | on success the (operator, AVS) row holds the self, total and active values; `other` is only written when the row is created |
| OperatorDb.Store.DeleteOperatorUSDValue | database/operator.go:123-132 | on success exactly the (operator, AVS) row is gone |
| OperatorDb.Store.SaveAvsUSDValue | database/operator.go:135-155 | on success the AVS maps to the value, replacing an earlier one |
| OperatorDb.Store.DeleteAvsUSDValue | database/operator.go:158-167 | on success exactly the AVS's row is gone |
| OperatorDb.Store.SaveOperatorPrevConsKey | database/operator.go:171-193 | on success the previous key of an existing (operator, chain) row is set; no row is added |
| OperatorDb.Store.ClearOperatorPrevConsKey | database/operator.go:196-207 | on success the previous key of an existing row is cleared |
| OperatorDb.Store.MarkOperatorKeyRemoval | database/operator.go:210-229 | on success an existing row is marked as being removed |
| OperatorDb.Store.RemoveOperatorConsKey | database/operator.go:232-250 | on success exactly the (operator, chain) row is gone |
| OperatorDb.DetailOverwrites | database/operator.go:19-28 | saving an operator sets all six columns of its row, whatever it held, and leaves every other operator's row alone |
| OperatorDb.ConsKeyKeepsHistory | database/operator.go:50-55 | saving a current key replaces key and address; an existing row keeps its previous key and removal mark, a new row has neither |
| OperatorDb.KeyUpdatesNeverInsert | database/operator.go:173-215 | the three keyed updates never add a row: on a missing row they change nothing, on an existing one only their own columns |
| OperatorDb.OptedOverwrites | database/operator.go:66-73 | an opt-in save overwrites slash contract, heights and jailed flag together and leaves other rows alone |
| OperatorDb.OperatorUsdInsertRefused | database/operator.go:96-102 | as written the insert names six columns for five values, so the database refuses every operator USD save; with a sixth placeholder it is the upsert |
| OperatorDb.UsdConflictKeepsOther | database/operator.go:99-102 | re-saving an operator's USD value updates self, total and active but keeps the `other` value written at creation |
| OperatorDb.DeletesExact | database/operator.go:124-236 | each deletion removes exactly its key |
| OperatorDb.ApplyTwice | database/operator.go:19-236 | every operator statement is idempotent: sending it twice is sending it once |
| OperatorDb.UsdTablesIndependent | database/operator.go:94-167 | statements on the AVS USD table leave the operator USD table alone, and the other way round |
| OperatorDb.UsdDeletionStays | database/operator.go:123-132 | a deleted operator USD row stays deleted through later statements that do not upsert an operator USD value |
| OperatorDb.AvsUsdDeletionStays | database/operator.go:158-167 | a deleted AVS USD row stays deleted through later statements that do not upsert an AVS USD value |
| OperatorTypes.NewOperator | types/operator.go:25-35 | addresses, meta info and update time are copied, and the three rates read back as the typed rates |
| OperatorTypes.NewOperatorFromStr | types/operator.go:38-51 | every field is the argument of the same name |
| OperatorTypes.NewOpted | types/operator.go:63-74 | addresses, slash contract and jailed flag are copied, and both heights read back as the typed heights |
| OperatorTypes.NewOptedFromStr | types/operator.go:78-94 | an empty opt-out height becomes the default opt-out height, any other is kept; the other fields are copied |
| OperatorTypes.NewOperatorUSDValueFromStr | types/operator.go:108-129 | a value exists exactly when total and self both parse as decimals |
| OperatorTypes.OtherIsDifference | types/operator.go:112-127 | when it exists, its `other` reads back as total minus self |
| OperatorTypes.FromStrOfParsed | types/operator.go:108-129 | from strings that parse as self and total, the value keeps the given strings and derives `other` from total minus self |
| OperatorTypes.TypedUsdValueReadsBack | types/operator.go:132-144 | `NewOperatorUSDValue` keeps both addresses, and its four rendered values read back as self, total, active and total minus self |
| OperatorTypes.NewAvsUSDValueFromStr | types/operator.go:152-159 | both strings are kept as given |
| OperatorTypes.NewAvsUSDValue | types/operator.go:162-169 | the rendered value reads back as the typed value |
| OperatorTypes.UsdValueFromStrAgrees | types/operator.go:108-144 | rendering the typed values and building from strings gives the record the typed constructor builds |
| OperatorTypes.OptInFromStrAgrees | types/operator.go:63-94 | an opt-in from a transaction (no opt-out height, not jailed) is the record genesis builds for the same opt-in with the default opt-out height |
| OperatorTypes.AvsUsdValueFromStrAgrees | types/operator.go:152-169 | both AVS USD constructors build the same record from the same value |
| OperatorModule.Decoded | modules/operator/handle_tx.go:46-84 | an event carrying every attribute a handler reads is handled by the handler's body on those values, read in the handler's order |
| OperatorModule.MissingAttributeStops | modules/operator/handle_tx.go:49-72 | an event missing an attribute stops its handler with the first missing key in reading order |
| OperatorModule.EventBodyOneOrStop | modules/operator/handle_tx.go:48-82 | every handler body sends exactly one statement or returns an error |
| OperatorModule.BodyOneOrStop | modules/operator/handle_tx.go:73-81 | every body, on any attribute values, sends exactly one statement or returns an error |
| OperatorModule.HandlerLoopShape | modules/operator/handle_tx.go:47-83 | a handler sends one statement per selected event, in order, up to the first event whose body fails, and returns that failure |
| OperatorModule.HandlerCompleted | modules/operator/handle_tx.go:47-83 | a handler that runs to the end sent one statement for every selected event, and each such event carried all the handler's attributes |
| OperatorModule.BodySentCarries | modules/operator/handle_tx.go:49-72 | a body that sends its statement read every attribute of its handler |
| OperatorModule.PlainBodySucceeds | modules/operator/handle_tx.go:86-234 | the handlers that only read attributes succeed on an event that carries them |
| OperatorModule.HandlerFailsIffMissing | modules/operator/handle_tx.go:86-234 | the handlers that only read attributes fail exactly when one of their events lacks an attribute |
| OperatorModule.RegistrationSavesOperator | modules/operator/handle_tx.go:46-84 | a registration saves the operator with its address as both earnings and approve address and the other attributes as given; a commission time that does not parse is an error |
| OperatorModule.OptInSavesDefaults | modules/operator/handle_tx.go:87-116 | an opt-in saves the attributes with the default opt-out height and not jailed |
| OperatorModule.OptInfoJailedIffTrue | modules/operator/handle_tx.go:177-214 | an opt-info update overwrites the opt-in from the attributes, and the operator is jailed exactly when the jailed attribute is the string "true" |
| OperatorModule.PrevKeyHandlerSavesCurrentKey | modules/operator/handle_tx.go:147-172 | the previous-key handler behaves exactly like the set-key handler: it saves the event's key as the current key |
| OperatorModule.InitRemovalSwapsKey | modules/operator/handle_tx.go:217-234 | a key-removal start marks the row keyed (chain id, operator), the store's arguments being passed reversed |
| OperatorModule.CompleteRemovalSwapsKey | modules/operator/handle_block.go:123-140 | a completed key removal deletes the row keyed (chain id, operator), reversed as well |
| OperatorModule.SwappedKeyMissesRow | modules/operator/handle_tx.go:228 | with reversed arguments the (operator, chain) row is neither marked nor deleted |
| OperatorModule.ClearPrevKeyInOrder | modules/operator/handle_block.go:143-159 | clearing a previous key passes (operator, chain id) in the store's order |
| OperatorModule.OperatorUsdSavesDerived | modules/operator/handle_block.go:33-65 | when total and self both parse the value is saved with `other` = total − self; otherwise the nil value is dereferenced and the handler panics |
| OperatorModule.OperatorUsdCorrectedReportsError | types/operator.go:112-119 | the corrected body returns the parse error of the total, then of the self value, and saves nothing; on values that parse it does what the handler does |
| OperatorModule.AvsUsdReadsTotal | modules/operator/handle_block.go:68-85 | an AVS USD event stores the total-USD-value attribute as the AVS's value |
| OperatorModule.DeletionsExact | modules/operator/handle_block.go:88-120 | the deletion handlers delete the event's (operator, AVS) pair, or its AVS |
| OperatorModule.LaterHandlersWrites | modules/operator/handle_common.go:31-46 | the operator USD deletion loop sends only deletions, and the AVS USD loops only AVS USD statements |
| OperatorModule.NoUsdUpsertIn | modules/operator/handle_common.go:31-46 | none of the statements after the operator USD upserts in the common handler is an operator USD upsert |
| OperatorModule.OperatorUsdDeletionWins | modules/operator/handle_common.go:25-33 | when the common handler runs to the end, every (operator, AVS) pair deleted in the batch is absent afterwards, whatever upserts came before |
| OperatorModule.AvsUsdDeletionWins | modules/operator/handle_common.go:37-46 | when the common handler runs to the end, every AVS deleted in the batch is absent afterwards |
| OperatorModule.NilUsdValuePanics | modules/operator/handle_block.go:56-60 | a total that does not parse makes the handler dereference a nil value and panic; the corrected body returns a parse error instead |
| OperatorModule.NilUsdValueExample | modules/operator/handle_block.go:56-60 | an empty total with a self of "1" makes the handler panic and the corrected body fail with a parse error |
| OperatorModule.GenesisBodiesOneOrStop | modules/operator/handle_genesis.go:28-115 | each genesis loop body sends one statement or returns an error |
| OperatorModule.GenesisCompleted | modules/operator/handle_genesis.go:19-117 | a genesis load that runs to the end ran all seven sections to the end, and its statements are theirs in order |
| OperatorModule.GenesisOperatorsSaved | modules/operator/handle_genesis.go:28-32 | one detail per genesis operator, loaded to the end exactly when every commission time parses |
| OperatorModule.ChainsOf | modules/operator/handle_genesis.go:34-36 | the (operator, chain) pairs of one record, one per chain, in order |
| OperatorModule.PairsCover | modules/operator/handle_genesis.go:34-46 | every chain of every record is a pair, and every pair comes from a record |
| OperatorModule.RecordsFlatten | modules/operator/handle_genesis.go:34-46 | the loop over records and their chains is one loop over the (operator, chain) pairs |
| OperatorModule.GenesisConsKeysOnePerDetail | modules/operator/handle_genesis.go:34-46 | one key row per (operator, chain) detail with the hex of the key's consensus address; the loop completes exactly when every key wraps |
| OperatorModule.GenesisOptStatesSaved | modules/operator/handle_genesis.go:48-60 | an opt state's joined key is (operator, AVS); the loop completes exactly when every key splits, and each row carries the typed values |
| OperatorModule.GenesisUsdValuesSaved | modules/operator/handle_genesis.go:62-75 | a USD value's joined key is (AVS, operator), the reverse of an opt state's; each row is the one `NewOperatorUSDValue` builds from the typed value |
| OperatorModule.GenesisAvsValuesSaved | modules/operator/handle_genesis.go:77-82 | AVS USD values always load, and each stored string reads back as its value |
| OperatorModule.GenesisPrevKeysChainFirst | modules/operator/handle_genesis.go:91-103 | a previous key's joined key is (chain id, operator), passed in that order, so the chain id lands where the store expects the operator |
| OperatorModule.GenesisRemovalsReversed | modules/operator/handle_genesis.go:105-115 | a removal's joined key is (operator, chain id) and its parts are passed reversed, as the transaction handler does |
| OperatorModule.Module.Send | database/operator.go:12-250 | the store function for one statement: on success the tables are the statement applied, on a store error they are unchanged |
| OperatorModule.Module.SendEach | modules/operator/handle_genesis.go:28-115 | a loop whose body returns an error or calls one store function: the store holds exactly the first `n` planned statements |
| OperatorModule.Module.HandleEvents | modules/operator/handle_tx.go:46-234 | one event handler: the store holds exactly the first `n` statements the handler plans, and its result is the planned one unless the store rejected a statement |
| OperatorModule.Module.HandleCommon | modules/operator/handle_common.go:13-48 | opt-info updates, operator USD values, their deletions, AVS USD values, their deletions, each only after the previous ran to the end; an operator USD value that does not parse panics |
| OperatorModule.Module.HandleTx | modules/operator/handle_tx.go:15-43 | registration, opt-in, set key, set previous key, the common handlers, then the start of key removals, in that order and stopping at the first error |
| OperatorModule.Module.HandleBlock | modules/operator/handle_block.go:14-30 | the common handlers on BeginBlock events, then completed key removals and cleared previous keys on EndBlock events; an operator USD value that does not parse panics there, as written |
| OperatorModule.Module.SaveRecordKeys | modules/operator/handle_genesis.go:34-46 | the nested loop over operator records and their chains: the store holds exactly the first `n` planned key rows |
| OperatorModule.Module.HandleGenesis | modules/operator/handle_genesis.go:19-117 | an undecodable state fails before any write; then operators, key rows, opt states, USD values, AVS values, previous keys and removals, the first error ending the load |
| AssetsDb.Store.SaveAssetsParams | database/assets.go:12-32 | parameters that do not encode fail with an encode error and change nothing; otherwise on success the single row is replaced exactly when the stored row is not more recent, and a store error changes nothing |
| AssetsDb.Store.SaveOrUpdateClientChain | database/assets.go:35-57 | on success a chain whose exocore chain index is already stored leaves the table as it was, and any other chain is added under its index |
| AssetsDb.Store.SaveToken | database/assets.go:61-93 | on success the asset id's row holds every column of the token and every other row is kept |
| AssetsDb.Store.UpdateAssetMetadata | database/assets.go:97-113 | on success every token with this address on this LayerZero chain gets the new metadata and nothing else changes |
| AssetsDb.Store.UpsertStakerAsset | database/assets.go:128-145 | on success the (staker, asset) row holds the four amounts of the record |
| AssetsDb.Store.InsertStakerAssetHistory | database/assets.go:148-161 | on success the record is appended to the staker history |
| AssetsDb.Store.SaveStakerAsset | database/assets.go:117-125 | the current row first, then one history row; the first failure stops with nothing further sent, and a success leaves both written |
| AssetsDb.Store.UpsertOperatorAsset | database/assets.go:176-189 | on success one row is appended to `operator_assets`: the statement has no conflict clause and never updates a row |
| AssetsDb.Store.InsertOperatorAssetHistory | database/assets.go:192-206 | on success the record is appended to the operator history |
| AssetsDb.Store.SaveOperatorAsset | database/assets.go:165-173 | the current row first, then one history row; the first failure stops with nothing further sent |
| AssetsDb.ParamsReplacedIff | database/assets.go:18-24 | the parameters row becomes the new one exactly when the stored height is not greater; older parameters leave every table unchanged; equal heights overwrite |
| AssetsDb.FirstChain | database/assets.go:41 | the chain returned is one that the batch saves under that index, and none is returned only when no save in the batch uses that index |
| AssetsDb.ClientChainFirstWins | database/assets.go:41 | after any batch an index holds the chain it already had, or else the first chain the batch saved under it; later saves under the same index are no-ops |
| AssetsDb.ChainStep | database/assets.go:35-57 | one statement adds a client chain only when it is a chain save for an index that is not yet stored |
| AssetsDb.TokenOverwrites | database/assets.go:66-88 | a token save adds or overwrites only its own row, with every column taken from the token, and saving it twice equals saving it once |
| AssetsDb.MetadataOnly | database/assets.go:97-113 | a metadata update changes only the metadata of the matching tokens, keeps every other token and every key, and is idempotent |
| AssetsDb.StakerUpsertOverwrites | database/assets.go:128-145 | a staker upsert overwrites the amounts of its own (staker, asset) row, keeps every other row and changes no other table |
| AssetsDb.AppendOnly | database/assets.go:148-206 | any batch keeps every history row and `operator_assets` row and appends, in order, exactly one row per insert it holds |
| AssetsDb.StakerHistoryGrows | database/assets.go:148-161 | any batch keeps every staker-history row and appends, in order, one row per history insert it holds |
| AssetsDb.OperatorAssetsGrow | database/assets.go:176-189 | any batch keeps every `operator_assets` row and appends, in order, one row per operator-asset insert it holds |
| AssetsDb.OperatorHistoryGrows | database/assets.go:192-206 | any batch keeps every operator-history row and appends, in order, one row per history insert it holds |
| AssetsDb.SaveAppendsOne | database/assets.go:117-173 | a completed staker save appends exactly its one history row; a completed operator save appends exactly one current row and one history row |
| AssetsDb.ChainsAndCallsOnly | database/assets.go:35-57 | a batch of client-chain saves and recorded calls leaves the parameters, tokens, staker and operator tables unchanged; recorded calls alone also leave the client chains unchanged |
| AssetsDb.ExternalChangesNoTable | database/assets.go:12-206 | a recorded call adds itself to the call log and changes no table |
| AssetsTypes.NewAssetsParams | types/assets.go:16-21 | the record carries the parameters and the height it was given |
| AssetsTypes.NewStakerAssetFromStr | types/assets.go:57-70 | every field is the argument of the same name; an empty slashed amount means no slashing |
| AssetsTypes.NewStakerAssetFromInfo | types/assets.go:40-53 | the deposit, withdrawable and pending amounts read back as the staker's amounts; the slashed amount is kept as given |
| AssetsTypes.NewOperatorAssetFromStr | types/assets.go:101-114 | every field is the argument of the same name |
| AssetsTypes.NewOperatorAssetFromInfo | types/assets.go:85-97 | the amounts read back as integers and the shares as decimals; the operator's own share becomes the self share |
| AssetsTypes.NewClientChainFromStr | types/assets.go:144-159 | every field is the argument in the same position |
| AssetsTypes.NewClientChain | types/assets.go:129-140 | the strings are copied, and each number is rendered in base 10 and reads back as the same number |
| AssetsTypes.ClientChainIndexDistinct | types/assets.go:134 | two chains get the same index string exactly when their exocore chain indexes are equal, so distinct chains occupy distinct rows |
| AssetsTypes.NewAssetsTokenFromStr | types/assets.go:193-208 | every field is the argument in the same position |
| AssetsTypes.NewAssetsToken | types/assets.go:176-189 | the asset id comes from the basic info; the numbers read back as the token's numbers and the amount as its staking total |
| AssetsTypes.FromInfoIsFromStr | types/assets.go:40-159 | each typed constructor equals the string constructor applied to the rendered values, so genesis and events build the same record from the same state |
| AssetsTypes.FromStrRebuilds | types/assets.go:57-208 | rebuilding a record from its own fields gives back the record: the string constructors lose nothing |
| AssetsModule.Decoded | modules/assets/handle_tx.go:53-265 | an event carrying every attribute a handler reads is handled by the handler's body on those values, read in the handler's order |
| AssetsModule.EventBodyOneOrStop | modules/assets/handle_tx.go:55-146 | every handler body sends exactly one store call or returns an error, and it sends exactly when the event carries all the attributes the handler reads |
| AssetsModule.MissingAttributeStops | modules/assets/handle_tx.go:56-214 | an event missing an attribute stops its handler with the first missing key in reading order |
| AssetsModule.HandlerLoopShape | modules/assets/handle_tx.go:54-97 | a handler sends one call per event up to the first event lacking an attribute, where it stops with that event's error; it fails exactly when one of its events lacks an attribute |
| AssetsModule.ClientChainEventSaved | modules/assets/handle_tx.go:42-98 | new-chain and updated-chain events are handled alike: the eight attributes, in constructor order, make the chain that is saved |
| AssetsModule.NewTokenSwapsMetaAndIndex | modules/assets/handle_tx.go:140-143 | a new-token event saves a token whose exocore chain index is the event's metadata and whose metadata is the event's chain index; every other field is the attribute of the same name |
| AssetsModule.UpdatedTokenMetadataOnly | modules/assets/handle_tx.go:152-169 | a token-updated event asks for the metadata of its asset id to be updated, with nothing else |
| AssetsModule.StakingTotalReadsAmountFirst | modules/assets/handle_tx.go:173-189 | the amount is read before the asset id, so an event lacking the amount reports the amount; the call then takes the asset id first |
| AssetsModule.StakerEventNoSlashing | modules/assets/handle_tx.go:192-225 | a staker-asset event saves the staker's three amounts with an empty slashed amount, meaning no slashing |
| AssetsModule.OperatorEventSelfShare | modules/assets/handle_tx.go:228-265 | an operator-asset event saves the operator's amounts with the total share as total share and the operator share as self share |
| AssetsModule.HandlerNone | modules/assets/handle_tx.go:54-102 | a handler that only transactions run sends nothing and succeeds on events of none of the transaction-only types |
| AssetsModule.DoneThen | modules/assets/handle_tx.go:13-39 | a step preceded by nothing sent and no error behaves as the step alone |
| AssetsModule.BlockIgnoresBegin | modules/assets/handle_block.go:11-25 | a block is handled from its EndBlock events alone |
| AssetsModule.BlockIsTxTail | modules/assets/handle_block.go:11-25 | on events of none of the transaction-only types, a transaction sends exactly what a block with those EndBlock events sends |
| AssetsModule.StakerErrorSkipsOperators | modules/assets/handle_block.go:16-23 | when the staker events fail, the block stops before any operator event and has sent only staker-asset saves |
| AssetsModule.BodySends | modules/assets/handle_tx.go:88-146 | the chain handlers send client-chain saves; every other handler sends a recorded store call |
| AssetsModule.HandlerSendsChainsOrCalls | modules/assets/handle_tx.go:53-265 | every handler sends only client-chain saves and recorded calls, and only recorded calls outside the chain handlers |
| AssetsModule.TxSendsChainsOrCalls | modules/assets/handle_tx.go:13-39 | a transaction sends only client-chain saves and recorded calls |
| AssetsModule.BlockSendsCalls | modules/assets/handle_block.go:11-25 | a block sends only recorded calls |
| AssetsModule.TxTouchesOnlyChains | modules/assets/handle_tx.go:13-39 | whatever prefix of a transaction is performed, the parameters, tokens, staker and operator tables and histories stay as they were |
| AssetsModule.BlockTouchesNoTable | modules/assets/handle_block.go:11-25 | whatever prefix of a block is performed, every table stays as it was |
| AssetsModule.GenesisLoadsAll | modules/assets/handle_genesis.go:16-92 | a state that does not decode is an error before any write; otherwise the load runs to the end exactly when the parameters encode, and then saves the parameters at the initial height first, then the client chains, tokens, deposits and operator assets in order |
| AssetsModule.GenesisChainsSaved | modules/assets/handle_genesis.go:41-47 | one client-chain save per genesis chain, of its rendering, in order |
| AssetsModule.GenesisTokensSaved | modules/assets/handle_genesis.go:49-55 | one token save per genesis token, of its rendering, in order |
| AssetsModule.StakerPairs | modules/assets/handle_genesis.go:58-72 | one (staker, deposit) pair per deposit of the staker, in order |
| AssetsModule.GenesisDepositsOnePerPair | modules/assets/handle_genesis.go:57-72 | one staker-asset save per (staker, asset) pair, in order, and every deposit of every staker is among the pairs |
| AssetsModule.OperatorAssetPairs | modules/assets/handle_genesis.go:75-89 | one (operator, asset state) pair per asset state of the operator, in order |
| AssetsModule.GenesisOperatorAssetsOnePerPair | modules/assets/handle_genesis.go:74-89 | one operator-asset save per (operator, asset) pair, in order, and every asset state of every operator is among the pairs |
| AssetsModule.GenesisFirstChainWins | modules/assets/handle_genesis.go:41-47 | among genesis chains sharing an exocore index, the first one listed is the one the store keeps, unless the store already held that index |
| AssetsModule.FirstChainAt | database/assets.go:41 | the first chain a batch saves under a key is the one at the first position using that key |
| AssetsModule.Module.Send | modules/assets/handle_tx.go:93-144 | a store call either applies its statement or fails with a store error and changes nothing |
| AssetsModule.Module.SendEach | modules/assets/handle_tx.go:55-97 | a loop performs its bodies' calls in order up to the first error and returns that error, or succeeds having performed them all |
| AssetsModule.Module.HandleEvents | modules/assets/handle_tx.go:53-265 | each handler performs its events' calls in order, stopping at the first missing attribute or store error; the store then holds exactly the calls performed |
| AssetsModule.Module.HandleClientChainEvents | modules/assets/handle_tx.go:42-50 | new-chain events, then updated-chain events; the first error stops both |
| AssetsModule.Module.HandleAssetStates | modules/assets/handle_tx.go:31-37 | staker events, then operator events, on the same events; the first error stops both |
| AssetsModule.Module.HandleTx | modules/assets/handle_tx.go:13-39 | the six handlers in order, the first error ending the transaction; the store holds exactly the prefix of the transaction's calls that was performed |
| AssetsModule.Module.HandleBlock | modules/assets/handle_block.go:11-25 | the staker and operator handlers on the EndBlock events, the first error ending the block |
| AssetsModule.Module.SaveParams | modules/assets/handle_genesis.go:35-39 | parameters that do not encode fail before any write; otherwise one parameters upsert |
| AssetsModule.Module.SaveDeposits | modules/assets/handle_genesis.go:57-72 | the nested loop over stakers and their deposits performs the saves in order up to the first error |
| AssetsModule.Module.SaveOperatorStates | modules/assets/handle_genesis.go:74-89 | the nested loop over operators and their asset states performs the saves in order up to the first error |
| AssetsModule.Module.HandleGenesis | modules/assets/handle_genesis.go:16-92 | the genesis load performs its saves in order up to the first error; the store holds exactly the prefix performed |
| DelegationDb.Store.SaveStakerOperatorAssociation | database/delegation.go:10-21 | on success the staker maps to the operator, whatever it mapped to before |
| DelegationDb.Store.DeleteStakerOperatorAssociation | database/delegation.go:24-32 | on success the staker has no association |
| DelegationDb.Store.SaveDelegationState | database/delegation.go:35-53 | on success the (staker, asset, operator) row holds both amounts of the state |
| DelegationDb.Store.AppendStakerToOperatorAsset | database/delegation.go:57-67 | on success the staker is a member of the (operator, asset) pair, whether or not it already was |
| DelegationDb.Store.RemoveStakerFromOperatorAsset | database/delegation.go:71-79 | on success the staker is no longer a member of the (operator, asset) pair |
| DelegationDb.Store.DeleteAllStakersFromOperatorAsset | database/delegation.go:82-90 | on success the (operator, asset) pair has no member left and other pairs keep theirs |
| DelegationDb.Store.SaveUndelegationRecord | database/delegation.go:94-116 | on success a new record id is inserted with every column, and a known one gets only the new actual completed amount and hold count |
| DelegationDb.Store.UpdateUndelegationRecordHoldCount | database/delegation.go:119-127 | on success a known record gets the new hold count and an unknown id changes nothing |
| DelegationDb.Store.MatureUndelegationRecord | database/delegation.go:133-144 | on success the record's maturity height and actual completed amount are set |
| DelegationDb.Store.SlashUndelegationRecord | database/delegation.go:147-157 | on success the record's actual completed amount is the post-slashing amount |
| DelegationDb.Store.AccumulateExoAssetDelegation | database/delegation.go:161-177 | amounts that are not numbers are refused by the store and change nothing; otherwise on success the three amounts are added to the (staker, operator) row |
| DelegationDb.Store.UndelegateExoAsset | database/delegation.go:181-192 | an amount that is not a number is refused and changes nothing; otherwise on success the amount moves from delegated to pending in the (staker, operator) row |
| DelegationDb.AssociationReplaced | database/delegation.go:10-21 | after a save the staker maps to exactly that operator; no other staker and no other table changes |
| DelegationDb.AssociationDeleted | database/delegation.go:24-32 | a delete removes only that staker's row and changes nothing when there is none |
| DelegationDb.StateOverwrites | database/delegation.go:39-40 | a state save replaces both amounts of its (staker, asset, operator) key, whatever was stored, and no other key |
| DelegationDb.AppendIdempotent | database/delegation.go:55-67 | appending makes the staker a member, appending it again changes nothing, and an existing member leaves the tables as they were |
| DelegationDb.RemovalsExact | database/delegation.go:69-90 | a single removal removes exactly that (operator, asset, staker) triple; removing all stakers of a pair empties that pair and leaves the members of every other pair |
| DelegationDb.SaveRecordKeepsFirst | database/delegation.go:92-116 | a known record id keeps its identity, amount and maturity and only takes the new actual completed amount and hold count; a new id is inserted with every column and no maturity height |
| DelegationDb.RecordUpdatesNamedColumns | database/delegation.go:118-157 | the hold-count, maturity and slashing updates change only their named columns of a known record, change nothing for an unknown id, keep the record ids, and are idempotent |
| DelegationDb.AccumulateAdds | database/delegation.go:159-177 | accumulation adds each of the three amounts to the stored (staker, operator) row, or starts the row with them; no other row changes |
| DelegationDb.AccumulateTwice | database/delegation.go:165-168 | two accumulations into one row add up to one accumulation of their sums |
| DelegationDb.UndelegateKeepsSum | database/delegation.go:179-192 | undelegation grows pending by the amount and keeps delegated plus pending and the slashed amount; a missing row stays missing |
| DelegationDb.CallsOnly | database/delegation.go:10-192 | a batch of recorded calls changes no table |
| DelegationDb.IdentitiesKept | database/delegation.go:118-157 | statements other than a record save neither add nor remove a record nor change its staker, asset or operator |
| DelegationTypes.NewDelegationStateFromStr | types/delegation.go:23-33 | every field is the argument of the same name |
| DelegationTypes.NewDelegationState | types/delegation.go:37-46 | the undelegatable share reads back as a decimal and the waiting amount as an integer equal to the chain's amounts |
| DelegationTypes.NewUndelegationRecordFromStr | types/delegation.go:67-72 | corrected constructor: every field, the actual completed amount and hold count included, is the argument of the same name |
| DelegationTypes.AsWrittenDropsCompletion | types/delegation.go:74-85 | the constructor as written stores an empty actual completed amount and hold count for a record started with "100" and "0", where the corrected one keeps them |
| DelegationTypes.AsWrittenAgreesOnlyWhenEmpty | types/delegation.go:67-86 | the as-written and corrected constructors agree exactly on argument lists whose actual completed amount and hold count are both empty |
| DelegationTypes.NewUndelegationRecord | types/delegation.go:90-108 | the record id is the key's encoding; the block number, epoch number, undelegation id and amount read back as the chain record's values; through the string constructor as written, the actual completed amount and hold count are empty, so the record is the corrected one with those two fields blanked |
| DelegationTypes.NewUndelegationRecordCorrected | types/delegation.go:94-107 | with the corrected string constructor, the amount, actual completed amount and hold count all read back as the values passed in |
| DelegationTypes.NewExoAssetDelegationFromStr | types/delegation.go:122-130 | every field is the argument of the same name |
| DelegationModule.Decoded | modules/delegation/handle_tx.go:62-291 | an event carrying every attribute a handler reads is handled by the handler's body on those values, read in the handler's order |
| DelegationModule.MissingAttributeStops | modules/delegation/handle_tx.go:65-84 | an event missing an attribute stops its handler with the first missing key in reading order, before any store call |
| DelegationModule.BodyStopsIffMissing | modules/delegation/handle_tx.go:62-312 | a handler body stops exactly when its event lacks an attribute; with the attributes read it only calls the store |
| DelegationModule.HandlerStopsAtFirstMissing | modules/delegation/handle_tx.go:63-93 | a handler handles every event before the first one lacking an attribute, and that event ends the handler with its error |
| DelegationModule.FirstMissingStops | modules/delegation/handle_tx.go:63-93 | the stopping event lacks an attribute, and the handler's result is the writes so far with that event's missing-key error |
| DelegationModule.HandlerFailsIffMissing | modules/delegation/handle_tx.go:63-93 | a handler fails exactly when one of its events lacks an attribute it reads |
| DelegationModule.TxIsHandlerLoop | modules/delegation/handle_tx.go:14-56 | a transaction is the ten handlers in their fixed order |
| DelegationModule.TxRunsInOrder | modules/delegation/handle_tx.go:14-56 | the handlers before the first failing one run to the end, and the transaction is their writes followed by the failing handler's |
| DelegationModule.StateEventSaved | modules/delegation/handle_tx.go:62-94 | the five attributes land in the state fields of the same name, although the handler reads them in another order |
| DelegationModule.AssociationEvents | modules/delegation/handle_tx.go:98-130 | an association saves the staker's operator; a disassociation deletes by staker |
| DelegationModule.MembershipEvents | modules/delegation/handle_tx.go:134-198 | staker-appended, staker-removed and all-stakers-removed events map one to one to the insert, the delete of one triple and the delete of the pair |
| DelegationModule.ExoDelegationAccumulates | modules/delegation/handle_tx.go:202-226 | a native-asset delegation accumulates its amount into the delegated amount of (staker, operator) with zero pending and slashed |
| DelegationModule.StartRecordsAmountTwice | modules/delegation/handle_tx.go:273-279 | an undelegation start passes the amount as both amount and actual completed amount, and hold count "0", to the constructor as written: the saved record holds the event's attributes and the amount, but an empty actual completed amount and hold count, where the corrected constructor would keep them |
| DelegationModule.StartUndelegatesOnlyExo | modules/delegation/handle_tx.go:281-288 | only an undelegation of the native asset also moves the amount from delegated to pending, after the record is saved |
| DelegationModule.HoldCountAbsolute | modules/delegation/handle_tx.go:296-312 | a hold-count event sends one hold-count update, which sets the known record's hold count to the event's value |
| DelegationDb.HoldCountLastWins | database/delegation.go:119-127 | of two hold-count updates of one record, the later one wins: the earlier one leaves no trace |
| DelegationModule.MaturedSetsHeight | modules/delegation/handle_block.go:56-69 | a maturity event first sets the record's maturity height to the block height and its actual completed amount to the event's amount, and no other record changes |
| DelegationModule.MaturedExoOnly | modules/delegation/handle_block.go:70-84 | an unknown record stops the handler with a no-rows error after the maturity update; a known native-asset record also matures the pending amount of its staker and operator, and any other record nothing more |
| DelegationModule.Module.MatureExo | modules/delegation/handle_block.go:70-84 | a record missing from the store stops with a no-rows error; a native-asset record matures its staker's and operator's pending amount; the tables end as the statements accepted up to the first error left them, and record identities are kept |
| DelegationModule.UndelegationSlashForwardsAll | modules/delegation/handle_block.go:92-112 | an undelegation-slashed event passes its record id, amount and slash amount on, in that order |
| DelegationModule.StakerSlashRouting | modules/delegation/handle_block.go:133-157 | a failed chain query is a source error and a failed stored read a store error; otherwise the stored minus the chain amount is slashed from the staker's asset delegation, or for the native asset from the delegation to the operator |
| DelegationModule.SlashFanOut | modules/delegation/handle_block.go:132-158 | one slash per listed staker, in order, up to the first staker whose amounts cannot be read; that error ends the handler |
| DelegationModule.SlashQueryFailureStops | modules/delegation/handle_block.go:128-131 | a slash event whose staker query fails ends the handler with the store's error before any slash |
| DelegationModule.SlashVisitsMembers | modules/delegation/handle_block.go:117-161 | a slash event that runs to the end slashes exactly the stakers stored for its operator and asset, each by its own difference |
| DelegationModule.StakerSlashesCall | modules/delegation/handle_block.go:145-157 | the delegation slashes change no table; they are store calls outside this model |
| DelegationModule.HandlerKeepsIdentities | modules/delegation/handle_tx.go:296-312 | handlers other than the undelegation start never add or remove a record or change its staker, asset or operator |
| DelegationModule.BodyNeverAppends | modules/delegation/handle_tx.go:62-312 | no handler body other than the staker-appended one adds a staker |
| DelegationModule.HandlerNeverAppends | modules/delegation/handle_tx.go:62-312 | no handler other than the staker-appended one adds a staker |
| DelegationModule.CompletionsNeverAppend | modules/delegation/handle_block.go:56-87 | undelegation completions never add a staker |
| DelegationModule.AfterRemovalsNoAppend | modules/delegation/handle_block.go:31-42 | the three block handlers between the BeginBlock removals and the delegation slashings add no staker |
| DelegationModule.NoAppendShrinks | database/delegation.go:55-90 | statements that add no staker leave at most the stakers there were |
| DelegationModule.AllRemovedWrites | modules/delegation/handle_tx.go:182-198 | a completed all-stakers-removed handler deletes, event by event, the stakers of each event's operator and asset |
| DelegationModule.RemovedStaysEmpty | database/delegation.go:82-90 | once all stakers of a pair are removed, later statements that add no staker leave the pair empty |
| DelegationModule.PrefixCompleted | modules/delegation/handle_block.go:16-42 | a block prefix that runs to the end ran each of its six handlers to the end, in order |
| DelegationModule.RemovalsBeforeSlashings | modules/delegation/handle_block.go:27-50 | after a completed block prefix, the operator and asset of every BeginBlock all-stakers-removed event have no staker |
| DelegationModule.RemovedPairNotSlashed | modules/delegation/handle_block.go:27-132 | so the delegation slashing of such an operator and asset in the same block runs over no staker, unless the staker query fails |
| DelegationModule.GenesisAssociationsSaved | modules/delegation/handle_genesis.go:27-32 | one association save per genesis association, in order |
| DelegationModule.GenesisStateSaved | modules/delegation/handle_genesis.go:34-64 | a key that does not parse is a parse error; otherwise the state is saved under the parsed staker, asset and operator with amounts that read back, and for the native asset the chain's delegated amount and the waiting amount are then accumulated, a failed chain query stopping the load |
| DelegationModule.AppendsOf | modules/delegation/handle_genesis.go:73-77 | one staker insert per listed staker, in order, under the entry's operator and asset |
| DelegationModule.GenesisMembersOnePerPair | modules/delegation/handle_genesis.go:66-78 | the stakers load runs to the end exactly when every key parses, and then appends each entry's stakers in order; otherwise it stops at an entry whose key does not parse |
| DelegationModule.GenesisMembersCover | modules/delegation/handle_genesis.go:66-78 | when every key parses, every listed staker is appended under its entry's operator and asset |
| DelegationModule.GenesisMembersOnly | modules/delegation/handle_genesis.go:66-78 | when every key parses, every append is of a listed staker under its entry's operator and asset |
| DelegationModule.GenesisRecordsDropCompletion | modules/delegation/handle_genesis.go:80-87 | one record save per genesis undelegation, in order, under the record's key, with the amount read back; the actual completed amount and the hold count 0 passed in are dropped, so each saved record is the corrected one with those two fields empty |
| DelegationModule.Module.Send | database/delegation.go:10-192 | a store call either applies its statement or fails with a store error and changes nothing |
| DelegationModule.Module.Run | modules/delegation/handle_tx.go:278-287 | the store calls of one loop body are made in order up to the first error |
| DelegationModule.Module.RunEach | modules/delegation/handle_tx.go:64-93 | a loop performs its bodies' calls in order up to the first error and returns that error, or succeeds having performed them all |
| DelegationModule.Module.HandleEvents | modules/delegation/handle_tx.go:62-312 | each handler performs its events' calls in order, stopping at the first missing attribute or store error; the store holds exactly the calls performed |
| DelegationModule.Module.HandleTx | modules/delegation/handle_tx.go:14-56 | the ten handlers in order, the first error ending the transaction; the store holds exactly the prefix performed |
| DelegationModule.Module.SendKeeping | modules/delegation/handle_block.go:67-81 | one completion statement, which keeps every record's identity |
| DelegationModule.Module.HandleUndelegationCompletions | modules/delegation/handle_block.go:56-87 | the maturity updates and native-asset maturities in order up to the first error, a record that cannot be read stopping with no rows; record identities are kept |
| DelegationModule.Module.HandleDelegationSlashings | modules/delegation/handle_block.go:117-161 | the slashes of each event's stored stakers in order, up to the first error, a failed staker query among them |
| DelegationModule.Module.HandleBlockPrefix | modules/delegation/handle_block.go:19-42 | the six handlers before the delegation slashings, in order, up to the first error |
| DelegationModule.Module.HandleBlock | modules/delegation/handle_block.go:16-52 | the seven handlers in order up to the first error, the slashings reading the stakers as the earlier handlers left them; the store holds exactly the prefix performed |
| DelegationModule.Module.SaveStakersByOperator | modules/delegation/handle_genesis.go:66-78 | the nested loop over entries and their stakers performs the inserts in order up to the first error |
| DelegationModule.Module.HandleGenesis | modules/delegation/handle_genesis.go:17-92 | a state that does not decode is an error before any write; otherwise associations, states, stakers and records (with empty actual completed amount and hold count) in order up to the first error |
| Events.FindAttributeByKey | modules/delegation/handle_tx.go:65-68 | the value of the first attribute with the key, found exactly when the event has one; otherwise a missing-attribute error naming the key |
| Events.Lookup | modules/delegation/handle_tx.go:65-84 | reading keys one after the other succeeds exactly when every key is present, giving each key's value; otherwise it reports the first missing key, every earlier one being present |
| Events.FindEventsByTypeAppend | modules/delegation/handle_block.go:20-24 | selecting events of a type from two batches is selecting from each and concatenating, so order is kept |
| Events.FindEventsByTypeMembers | modules/avs/handle_tx.go:24 | every event selected by type comes from the batch and has that type |
| Events.FindEventsByTypeNone | modules/assets/handle_tx.go:54 | a batch with no event of the type selects nothing |
| Decimal.FormatNat | types/assets.go:133-138 | the rendering is a non-empty digit string with no leading zero except for zero itself |
| Decimal.DigitsValueOfFormatNat | types/assets.go:133-138 | the digits rendered for a natural number spell that number |
| Decimal.ParseFormatInt | types/delegation.go:100-106 | reading back what `%d` or `math.Int.String()` wrote gives the same integer |
| Decimal.FormatIntInjective | types/assets.go:134 | two different integers are never rendered the same way |
| Decimal.ParseInt64 | modules/exomint/handle_block.go:44 | a parse succeeds only on a base-10 integer within 64 signed bits, and its value is that integer; otherwise it fails |
| Decimal.ParseInt64FormatInt | modules/exomint/handle_block.go:44 | every 64-bit integer rendered in base 10 parses back to itself |
| Decimal.ParseFormatDec | types/assets.go:94-95 | reading back what `LegacyDec.String()` wrote gives the same decimal |
| Text.ToLower | modules/avs/handle_genesis.go:24-28 | same length, each character lowered |
| Text.ToLowerNormalises | modules/avs/handle_genesis.go:24-28 | the result holds no upper-case letter, lower-case strings are left alone, and lowering twice is lowering once |

## How the model reads the source

- **Store failures.** Every store method may fail with a database error and then leaves its tables unchanged. Which statements fail is not determined: the Postgres connection is outside the model.
- **External calls.** Store functions that the handlers call but `database/*.go` does not define, or whose arguments do not fit the SQL shown, are recorded in order in an `external` log field of the store. Their effect on the tables is not invented.
- **Foreign conversions and chain queries.** Codec decoding, `sdk.ParseTime`, joined-store-key splitting, consensus-key derivation, `AssetID()`, record-key hex and the chain's query sources are function-valued parameters, which may fail.
- **Numbers.** Base-10 `int64` strings, `math.Int` strings and `LegacyDec` strings are modelled concretely (`Decimal`).
- **Design versus code.** Where the design description and the code disagree, the model follows the code:
  - client chains are keyed on the exocore chain index, and a second save of an index does nothing;
  - the operator USD value keeps the `other` value written when its row was created; nothing recomputes it;
  - a staker asset's delegated amount is stored as given, not derived;
  - the operator table has no other-share column to recompute;
  - an undelegation record built by `NewUndelegationRecordFromStr` as written carries no actual completed amount and no hold count, and both the undelegation-start handler and the genesis load save such records (see Findings).

## Left out

- Source adapters (`modules/*/source/**`, `modules/types/sources.go`): RPC and in-process queries. They appear only as possibly failing function parameters (`EpochSource`, the validator and genesis sources, `rowOrder`, `delegatedAmountOf`).
- `modules/registrar.go`, `modules/*/module.go`, `cmd/parse/*` and `modules/actions/handle_additional_operations.go`: wiring, the command line and signal handling, with no indexing logic.
- The double-sign evidence goroutine (modules/dogfood/handle_block.go:47, 137-180): it is concurrent, fire-and-forget and only logs its errors. `DogfoodModule.Module.HandleBlock` does not start it.
- `modules/assets/handle_msg.go`, `modules/exomint/handle_msg.go`, `modules/epochs/handle_genesis.go` and `modules/exomint/handle_genesis.go`: each fetches or decodes a value and makes one save call that is modelled by its store method.
- `types/dogfood.go` and `types/exomint.go` only copy fields. They appear as datatypes and record constructors inside the handler models.
- Codec JSON decoding, `json.Marshal`, `sdk.ParseTime`, `ParseJoinedStoreKey`, `ParseStakerAssetIDAndOperator`, consensus-key hex and bech32 derivation, `AssetID()`, `hexutil.Encode` of record keys and `TokensFromConsensusPower`: chain library code. Each is a parameter or an uninterpreted constant function that may fail. `TokensFromConsensusPower` gives a token amount that cannot fail; the `Int64()` that follows it panics when the amount does not fit an int64, and that panic is modelled.
- `LegacyNewDecFromStr` is modelled by `Decimal.ParseDec`, which accepts digit strings with an optional leading `-` and at most 18 fractional digits. A leading `+`, which the library's big-integer parse also accepts, makes `ParseDec` fail. Exponents and the 18-digit rounding rules of the library are not modelled.
- Postgres numeric parsing in `AccumulateExoAssetDelegation` and `UndelegateExoAsset` is modelled by `Decimal.ParseInteger`.
- Store functions that are called but not defined in `database/*.go`, kept as recorded calls only:
  - `SaveAssetsToken`, `UpdateStakingTotalAmount`;
  - `MatureExoAssetUndelegation`, `SlashStakerDelegation`, `SlashExoAssetDelegation`;
  - `SaveValidators`, `SaveValidatorsVotingPowers`.
- `SaveDoubleSignEvidences` belongs to the goroutine left out above.
- `GetStakersByOperatorAsset` reads the member table in an order given by the parameter `rowOrder`, which may also fail the query. `GetDelegatedAmount` is the parameter `delegatedAmountOf`.
- The record reads `GetStakerIDAssetIDFromUndelegationRecord` and `GetOperatorAddrFromUndelegationRecord` look up the record table as it stood at the start of the block. A missing record gives a no-rows error.
- Calls whose arguments do not match the callee are recorded as external calls carrying the arguments the handler passes. They are not modelled as the callee's statement:
  - `UpdateAssetMetadata` with two arguments (modules/assets/handle_tx.go:164);
  - `SaveStakerAsset` and `SaveOperatorAsset` with fields that `types.StakerAsset` and `types.OperatorAsset` lack (`Free`, `Delegated`, `Height`, `Share`, `DelegatedShare`);
  - `SlashUndelegationRecord` with three arguments (modules/delegation/handle_block.go:107);
  - genesis `AccumulateExoAssetDelegation` with a value that lacks the operator and slashed amount.
- Other arity and type mismatches in the SQL text are not modelled; the statements are modelled by their conflict keys and SET lists. The six columns and five placeholders of database/operator.go:97-98 are a finding below, and the handlers use the corrected statement:
  - database/assets.go:76-77 is missing a comma;
  - database/assets.go:137-139 binds `Free` and `Delegated`, which `types.StakerAsset` does not have; the model's row carries them.
- `UpsertOperatorAsset` (database/assets.go:176-189) has no conflict clause, so it is modelled as what it is: an append to `operator_assets`.
- `UpdateAssetMetadata` (database/assets.go:97-113) updates the table `assets`, not `tokens`. The model applies it to the token table, to every token with that address and LayerZero chain id.
- Argument swaps are modelled as written:
  - metadata and exocore chain index at modules/assets/handle_tx.go:140-143;
  - chain id and operator in the operator key-removal and previous-key calls.
- `NewExoAssetDelegationFromStr` is called with five arguments at modules/delegation/handle_tx.go:217. The model passes all five to `AccumulateExoAssetDelegation` as `ExoDelegationArgs(staker, operator, amount, "0", "0")`, the order of the call; the three-field `ExoAssetDelegation` the constructor declares is not used there.
- The genesis call of `NewStakerAssetFromInfo` has three arguments (modules/assets/handle_genesis.go:64-66). The model passes an empty slashed amount.
- DelegationDb.Store.MatureUndelegationRecord, DelegationDb.Store.SlashUndelegationRecord: the contracts state the new tables through `Apply` only. What those statements change is stated by `DelegationDb.RecordUpdatesNamedColumns`.
- DelegationModule.SlashVisitsMembers: assumes that the row order lists exactly the members of the pair once each, since `GetStakersByOperatorAsset` is not part of this model.
- AssetsDb.Store.SaveOrUpdateClientChain: its callers pass a `*types.ClientChain` (modules/assets/handle_tx.go:88-93, modules/assets/handle_genesis.go:43), while it declares an `assetstypes.ClientChainInfo` (database/assets.go:35). The model applies the insert to the string row the callers build, keyed on its rendered exocore chain index, rather than recording the calls as external.
- Text.ToLower: lowers ASCII letters only. Go's `strings.ToLower`, used on genesis AVS addresses, also folds other Unicode letters; hex addresses are ASCII.
- Timestamps (`sdk.ParseTime`, epoch start times and durations) are opaque integers compared only for equality.
- Logging, metrics and the `zerolog` messages are not modelled.

## Findings

| source | as written | input that shows it | evidently intended | confidence | as-written member | corrected member |
|---|---|---|---|---|---|---|
| types/delegation.go:67-86 | `NewUndelegationRecordFromStr` takes the actual completed amount and the hold count but leaves both fields of the record empty | ("id", "staker", "asset", "operator", "hash", "7", "week", "3", "1", "100", "100", "0") gives a record with an empty actual completed amount and an empty hold count | the record carries both values passed in | not executed | DelegationTypes.AsWrittenDropsCompletion | DelegationTypes.NewUndelegationRecordFromStr |
| modules/operator/handle_block.go:56-60 | when the total or self value does not parse, `NewOperatorUSDValueFromStr` returns nil without an error and the handler passes the nil `*OperatorUSDValue` to `SaveOperatorUSDValue`, which dereferences it | an operator USD event with total "" and self "1" | the handler returns the parse error and saves nothing | not executed | OperatorModule.NilUsdValueExample | OperatorModule.OperatorUsdCorrectedReportsError |
| database/operator.go:97-98 | the insert names six columns (`other_usd_value` included) but its `VALUES` list has five placeholders, while `Exec` passes six arguments | any operator USD value, e.g. operator "op", AVS "avs", all values "1": PostgreSQL refuses the statement because the `INSERT` has more target columns than expressions | `VALUES ($1, $2, $3, $4, $5, $6)`, so the row is inserted or its self, total and active values updated | not executed | OperatorDb.OperatorUsdInsertRefused | OperatorDb.Store.SaveOperatorUSDValue |
