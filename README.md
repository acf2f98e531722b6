# Branded tokens (`x/surprise`), modelled in Dafny

This project models the branded-token module `x/surprise` of the Sandblock
chain, a Cosmos SDK application. A *branded token* is a record of a coin
(`denom` = the token's name, `amount` = its registered supply) and an owner
address. The module keeps these records in a key-value store under the slug
of the token's name. It also credits and debits the coins on the bank
module's ledger.

The model has these parts:

- `Types` is the record (`types.go`). It has its getters, the copying
  `SetOwner` and the zero record `NewBrandedToken`.
- `Msgs` holds the four messages (`msg.go`): their constructors, `Type`,
  `GetSigners` and `ValidateBasic`. `Msg` is the sum of the four messages
  plus a message of any other type.
- `Registry.Keeper` is the keeper (`keeper.go`). It is a class whose field
  `store` is the module's key-value store. Entries in the store are seen
  through the codec: an entry is either a decoded record or bytes that do not
  decode.
- `KeyOrder` gives the order in which the store's iterator visits keys:
  ascending byte order, which for strings is the character-wise
  lexicographic order.
- `Bank.CoinKeeper` is the bank ledger the keeper holds: one balance per
  account and denomination.
- `Querier` holds the read-only queries (`keeper/querier.go`). `QueryTypes`
  holds the query discriminators and `QueryResFetch.String`
  (`types/querier.go`).
- `Handler` is the message handler (`handler.go`). It has the four commands
  and the dispatch.

Two foreign pieces are parameters:
- The slug function of `gosimple/slug` is `slug: string -> string`. Nothing
  about it is assumed beyond its being a function.
- The bank's verdict on the one ledger call a command makes is
  `bankAccepts`. Every handler is proved for both verdicts.

The model settles these points about the source:
- The handlers read `msg.FromAddress`, a field the messages do not have.
  It is taken to be the signer field that `GetSigners` returns: the creator,
  the previous owner, or the owner.
- The create handler tests `err` without declaring it. It is taken to be
  the error returned by `AddCoins`.
- The create handler checks for a duplicate under the raw name but stores
  under `slug(name)`. This is modelled as written. A create whose name's slug
  is already a key overwrites that record. If the ledger then refuses, the
  compensating delete removes the key, so the earlier record is lost. The
  contracts of `Handler.HandleMsgCreateBrandedToken` state exactly this, and
  `Handler.CreateRefusalDropsSlugTwin` works through one such case.
- `MsgCreateBrandedToken.ValidateBasic` rejects only a *negative* supply,
  although its message says "less or equal than 0". The model follows the
  code, so a supply of 0 is accepted.
- Mint, burn and the supply query compute `Add`/`Sub` on `sdk.Int` and
  drop the result (see Findings). The main model uses the evident intent:
  mint persists `amount + m`, burn persists `amount - m`, and the supply is
  the sum of all amounts. The code as written is modelled beside it.

## Model

| member | source | states |
|---|---|---|
| Types.BrandedToken.GetName | x/surprise/internal/types/types.go:14 | the name is the coin's denomination |
| Types.BrandedToken.GetAmount | x/surprise/internal/types/types.go:15 | the amount is the coin's amount |
| Types.BrandedToken.GetOwner | x/surprise/internal/types/types.go:16 | the owner is the record's owner field |
| Types.BrandedToken.SetOwner | x/surprise/internal/types/types.go:17-20 | the returned copy has the new owner and the same name and amount; the receiver is a value and is not changed |
| Types.SetOwnerIdempotent | x/surprise/internal/types/types.go:17-20 | setting the same owner twice equals setting it once |
| Types.SetOwnerLastWins | x/surprise/internal/types/types.go:17-20 | of two owner changes the last one wins; setting the current owner changes nothing |
| Types.NewBrandedToken | x/surprise/internal/types/types.go:22-24 | the zero record: empty name, zero amount, empty owner |
| Msgs.MsgCreateBrandedToken.Type | x/surprise/internal/types/msg.go:31 | the type name is the constant "CreateBrandedToken" |
| Msgs.NewMsgCreateBrandedToken | x/surprise/internal/types/msg.go:22-28 | each argument is stored unchanged in its field |
| Msgs.MsgCreateBrandedToken.GetSigners | x/surprise/internal/types/msg.go:32-34 | exactly one signer, the creator |
| Msgs.MsgCreateBrandedToken.ValidateBasic | x/surprise/internal/types/msg.go:39-50 | accepted iff the creator is non-empty, the name is non-empty and the supply is not negative (0 is accepted); otherwise the first failing check, in order creator, name, supply, gives its error code and text |
| Msgs.MsgTransferBrandedTokenOwnership.Type | x/surprise/internal/types/msg.go:70-72 | the type name is the constant "TransferBrandedTokenOwnership" |
| Msgs.NewMsgTransferBrandedTokenOwnership | x/surprise/internal/types/msg.go:61-67 | each argument is stored unchanged in its field |
| Msgs.MsgTransferBrandedTokenOwnership.ValidateBasic | x/surprise/internal/types/msg.go:73-84 | accepted iff both owners and the name are non-empty (there is no amount check); otherwise the first failing check, in order previous owner, new owner, name, gives its error |
| Msgs.MsgTransferBrandedTokenOwnership.GetSigners | x/surprise/internal/types/msg.go:85-87 | exactly one signer, the previous owner |
| Msgs.ValidateAmountMsg | x/surprise/internal/types/msg.go:112-123 | the checks that mint and burn share: accepted iff the owner and name are non-empty and the amount is positive; otherwise the first failing check, in order owner, name, amount, gives its error |
| Msgs.MsgMintBrandedToken.Type | x/surprise/internal/types/msg.go:111 | the type name is the constant "MintBrandedToken" |
| Msgs.NewMsgBrandedTokenMint | x/surprise/internal/types/msg.go:102-108 | each argument is stored unchanged in its field |
| Msgs.MsgMintBrandedToken.ValidateBasic | x/surprise/internal/types/msg.go:112-123 | accepted iff non-empty owner, non-empty name and amount > 0; the error is the shared one |
| Msgs.MsgMintBrandedToken.GetSigners | x/surprise/internal/types/msg.go:127-129 | exactly one signer, the owner |
| Msgs.MsgBurnBrandedToken.Type | x/surprise/internal/types/msg.go:149 | the type name is the constant "BurnBrandedToken" |
| Msgs.NewMsgBurnBrandedToken | x/surprise/internal/types/msg.go:140-146 | each argument is stored unchanged in its field |
| Msgs.MsgBurnBrandedToken.ValidateBasic | x/surprise/internal/types/msg.go:150-161 | accepted iff non-empty owner, non-empty name and amount > 0; the error is the shared one |
| Msgs.MsgBurnBrandedToken.GetSigners | x/surprise/internal/types/msg.go:165-167 | exactly one signer, the owner |
| Msgs.Msg.Type | x/surprise/internal/types/msg.go:8-11 | the type name of each of the four messages is its own constant |
| Msgs.Msg.Signer | x/surprise/internal/types/msg.go:32-34 | the sender a handler reads is the one signer `GetSigners` returns, for each of the four messages |
| Msgs.TypesDistinct | x/surprise/internal/types/msg.go:8-11 | two messages have the same `Type()` iff they are of the same kind, so the four type names are distinct |
| QueryTypes.DiscriminatorsDistinct | x/surprise/internal/types/querier.go:7-9 | "list", "get" and "supply" are pairwise distinct |
| QueryTypes.String | x/surprise/internal/types/querier.go:15-17 | newline join: "" for no keys, the key itself for one key, the head then "\n" then the rest for more; when no key contains a newline, splitting the result on "\n" gives the keys back |
| QueryTypes.SplitJoin | x/surprise/internal/types/querier.go:15-17 | joining non-empty lists of separator-free parts with a separator and splitting on it is the identity |
| KeyOrder.SortedKeys | x/surprise/internal/keeper/keeper.go:78-81 | the order of the store's iterator: every key exactly once, in ascending order |
| KeyOrder.AscendingUnique | x/surprise/internal/keeper/keeper.go:78-81 | two ascending sequences with the same keys are equal, so the iteration order is determined by the keys |
| KeyOrder.LessTransitive | x/surprise/internal/keeper/keeper.go:78-81 | the key order is transitive |
| KeyOrder.LessTotal | x/surprise/internal/keeper/keeper.go:78-81 | any two distinct keys are ordered |
| Bank.Credit | x/surprise/handler.go:52 | a credit raises the account's balance by the amount and moves no other balance |
| Bank.Debit | x/surprise/handler.go:175 | a debit lowers the account's balance by the amount and moves no other balance |
| Bank.DebitUndoesCredit | x/surprise/handler.go:131-175 | a debit of what was credited restores every balance |
| Bank.CoinKeeper.AddCoins | x/surprise/handler.go:52 | on acceptance the ledger is the old one credited by the coin; on refusal it is unchanged |
| Bank.CoinKeeper.SubtractCoins | x/surprise/handler.go:175 | on acceptance the ledger is the old one debited by the coin; on refusal it is unchanged |
| Registry.Keeper.GetBrandedToken | x/surprise/internal/keeper/keeper.go:39-58 | a missing key gives the zero record and no error; a decodable entry gives its record and no error; undecodable bytes give the codec's error |
| Registry.Keeper.HasBrandedToken | x/surprise/internal/keeper/keeper.go:67-69 | true iff the key is in the store |
| Registry.Keeper.SetBrandedToken | x/surprise/internal/keeper/keeper.go:61-64 | the store gains or replaces exactly that key; afterwards Has is true and Get returns the value with no error; Get on every other key is unchanged |
| Registry.Keeper.DeleteBrandedToken | x/surprise/internal/keeper/keeper.go:72-75 | the store loses exactly that key; afterwards Has is false and Get returns the zero record; Get on every other key is unchanged |
| Registry.Keeper.GetBrandedTokensIterator | x/surprise/internal/keeper/keeper.go:78-81 | every key of the store exactly once, in ascending order |
| Querier.QueryGetBrandedToken | x/surprise/internal/keeper/querier.go:70-91 | a missing `slug(path[0])` gives invalid-request "The branded token does not exist"; a decodable record is returned; undecodable bytes give the wrapped codec error; an empty path is the index-out-of-range panic |
| Querier.QueryListBrandedTokens | x/surprise/internal/keeper/querier.go:52-68 | the list is the iterator's keys: every key of the store exactly once, in ascending order |
| Querier.TotalSupply | x/surprise/internal/keeper/querier.go:33-41 | the intended fold: the sum of the amounts of all records, equal to the sum taken over any duplicate-free listing of the store's keys |
| Querier.SumAnyOrder | x/surprise/internal/keeper/querier.go:37-41 | every duplicate-free listing of the same keys gives the same sum |
| Querier.QueryTotalSupply | x/surprise/internal/keeper/querier.go:33-50 | read as intended: the sum of the amounts of all records, starting from zero |
| Querier.QueryTotalSupplyAsWritten | x/surprise/internal/keeper/querier.go:33-41 | as written: the accumulator is the nil-valued zero `sdk.Int`, so the first `Add` dereferences a nil `big.Int` and panics on every non-empty store; an empty store answers 0 |
| Querier.NewQuerier | x/surprise/internal/keeper/querier.go:15-31 | "get" runs the get query on the path without its first segment; "list" returns the iterator's keys; "supply" returns the total supply; any other endpoint gives unknown-request; an empty path is the index-out-of-range panic |
| Querier.SumPermutation | x/surprise/internal/keeper/querier.go:37-41 | the sum of the amounts does not depend on the order the keys are visited in |
| Querier.SumUpdate | x/surprise/internal/keeper/querier.go:37-41 | rewriting a key listed once changes the sum by exactly the change in that key's amount |
| Querier.TotalSupplyAfterRewrite | x/surprise/internal/keeper/querier.go:33-41 | rewriting an existing key changes the total supply by the change in its amount |
| Querier.TotalSupplyAfterInsert | x/surprise/internal/keeper/querier.go:33-41 | adding a new key raises the total supply by the new record's amount |
| Querier.TotalSupplyAfterDelete | x/surprise/internal/keeper/querier.go:33-41 | deleting a key lowers the total supply by that key's amount |
| Querier.SupplyScenario | x/surprise/internal/keeper/querier.go:33-41 | records of 10 and 20 give a total of 30; rewriting the first to 6 gives 26 |
| Handler.MessageEvent | x/surprise/handler.go:60-68 | the event is of type "message" and lists the module category, the action and the sender, then the amount when there is one |
| Handler.EventAmount | x/surprise/handler.go:98-105 | transfer is the only command whose event has no amount |
| Handler.Authorize | x/surprise/handler.go:114-128 | the shared gate: granted iff the slug is a key, its bytes decode and its owner is the sender; otherwise "does not exists" (invalid request), the wrapped fetch error, or "not the owner" (invalid public key), in that order |
| Handler.Minted | x/surprise/handler.go:136-138 | read as intended: the amount grows by the minted amount; name and owner are unchanged |
| Handler.Burned | x/surprise/handler.go:180-182 | read as intended: the amount shrinks by the burnt amount; name and owner are unchanged |
| Handler.MintedAsWritten | x/surprise/handler.go:136-138 | as written: the fetched record is written back exactly as it was |
| Handler.BurnedAsWritten | x/surprise/handler.go:180-182 | as written: the fetched record is written back exactly as it was |
| Handler.MintAsWrittenLosesTheAmount | x/surprise/handler.go:137 | for a positive amount, the record as written differs from the intended one |
| Handler.BurnAsWrittenLosesTheAmount | x/surprise/handler.go:181 | for a positive amount, the record as written differs from the intended one |
| Handler.InvariantsAfterSet | x/surprise/internal/keeper/keeper.go:61-64 | writing a record under the slug of its name keeps all records under their slugs; writing a record with a non-empty owner keeps all owners non-empty |
| Handler.HandleMsgCreateBrandedToken | x/surprise/handler.go:36-71 | the result, the new store and the new ledger are those `CreateEffect` fixes: if the raw name is a key, invalid request and nothing changes; if the ledger accepts, `store[slug(name)]` becomes (name, supply, creator), no other key changes, the creator is credited the supply in denom name, and one event with the amount is returned; if the ledger refuses, `slug(name)` is removed, no other key changes, the ledger is unchanged and the error is ErrPanic. A new slug raises the total supply by the initial supply. Both store invariants are kept (owners non-empty when the message is valid) |
| Handler.HandleMsgTransferBrandedTokenOwnership | x/surprise/handler.go:73-108 | the outcome is the one `TransferEffect` fixes: a refusal by the gate returns its error and changes nothing; otherwise exactly the owner field of `store[slug(name)]` becomes the new owner and one event without an amount is returned; the ledger and the total supply never change; the invariants are kept |
| Handler.HandleMsgMintBrandedToken | x/surprise/handler.go:110-152 | the outcome is the one `MintEffect` fixes: a refusal by the gate changes nothing; the ledger is called before the registry, and a refusal by it leaves both unchanged with ErrPanic; on success the ledger is the old one credited by the amount in the token's denomination and the record becomes `Minted`, with one event carrying the amount. The total supply rises by the amount, the balance moves by exactly as much as the record's amount, and the invariants are kept |
| Handler.HandleMsgBurnBrandedToken | x/surprise/handler.go:154-196 | the outcome is the one `BurnEffect` fixes: the same as mint with a debit, and the record becomes `Burned`; on success the balance and the record's amount both fall by the amount, and so does the total supply |
| Handler.NewHandler | x/surprise/handler.go:13-34 | the outcome is the one `HandlerEffect` fixes, which is the effect of the named command for each of the four messages (store, ledger and result in every branch) and, for a message of another type, unknown-request with nothing changed. A success returns exactly one event with the action `msg.Type()`, the sender and the amount for create, mint and burn; an error never moves the ledger and changes the store only by the create's compensating delete; the invariant that records sit under their slug is kept, and so is the one that owners are non-empty, for valid messages |
| Handler.HandlerEffectUnique | x/surprise/handler.go:13-34 | the effect of a message is determined by the state before it and the ledger's verdict: a single result, new store and new ledger |
| Handler.HandlerEffectSupply | x/surprise/handler.go:36-196 | from the effect alone: a successful create under a new slug raises the total supply by the initial supply, a transfer never changes it, and a successful mint or burn moves it by the amount |
| Handler.CreateRefusalDropsSlugTwin | x/surprise/handler.go:41-56 | a create of "My Token" over a record stored under its slug "my-token", refused by the ledger, leaves no record under "my-token" |

## Left out

- The slug function of `gosimple/slug` is a parameter. No property of it is assumed.
- The bank module's own arithmetic and its reasons for refusing a credit or debit are left out. The verdict is a parameter and the ledger a map of balances.
- `sdk.NewCoin`/`sdk.NewCoins` denomination validation and their panics are left out. That library code is not visible, and amounts are unbounded integers.
- The range limit of `sdk.Int` is left out. That library code is not visible either.
- Querier.QueryTotalSupplyAsWritten: the panic it reports rests on the `sdk.Int` and `big.Int` library code, which is not visible: the zero `sdk.Int` holds a nil `big.Int`, `Add` dereferences its receiver's, and JSON-encoding the nil zero value yields 0. The loop is not written out, because its first iteration panics; the model branches on whether the iterator yields a key.
- Keys that are not valid UTF-8 are not represented: store keys are Dafny strings, and their order is the order of their characters, which is the byte order of their UTF-8 encodings. Slugs are ASCII, so every key a handler writes is representable.
- The Amino binary codec is left out. An entry in the store is a decoded record, or bytes that do not decode with the codec's message.
- JSON encoding of query responses (`codec.MarshalJSONIndent`) and its error path are left out. Responses are returned as values.
- The `Route` and `GetSignBytes` methods of the messages are left out: they are codec and router plumbing.
- `NewKeeper` and `Logger` are left out. The store key, codec, parameter subspace and logger are framework wiring, so the model's keeper keeps only the ledger and the store.
- The event manager is a fresh list per command. Events are returned as values, with addresses and amounts unformatted, so bech32 and decimal printing are left out.
- `BrandedToken.String` (`types.go:26-28`) is left out: it is bech32 and decimal formatting through `fmt.Sprintf`.
- The `%T` type name in the unknown-message error is modelled as the message's type name, carried by `UnknownMsg`.
- Go's `sdk.Context`, gas and the multistore transaction around a handler are not modelled. A handler's writes are the only effects.
- The index-out-of-range panic on an empty query path is modelled as the outcome `OutOfRange`, not as a precondition.

## Findings

| source | as written | input that shows it | evidently intended | confidence | as-written member | corrected member |
|---|---|---|---|---|---|---|
| x/surprise/handler.go:137 | `brandedToken.Amount.Add(msg.Amount)` drops the sum it returns, so the record is written back with its old amount while the ledger is credited | a mint of 5 on a token of amount 10: the ledger gains 5, the record stays at 10 | the record's amount becomes 15 | not executed | Handler.MintAsWrittenLosesTheAmount | Handler.Minted |
| x/surprise/handler.go:181 | `brandedToken.Amount.Sub(msg.Amount)` drops the difference it returns, so the record keeps its old amount while the ledger is debited | a burn of 4 on a token of amount 10: the ledger loses 4, the record stays at 10 | the record's amount becomes 6 | not executed | Handler.BurnAsWrittenLosesTheAmount | Handler.Burned |
| x/surprise/internal/keeper/querier.go:40 | `supply.Add(token.Amount)` drops the sum it returns, so the accumulator could never grow; and `supply` is the zero `sdk.Int`, whose nil `big.Int` the call dereferences | records of 10 and 20: the query panics on the first record instead of answering 30 | the query reports 30 | not executed | Querier.QueryTotalSupplyAsWritten | Querier.QueryTotalSupply |
