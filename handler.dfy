/** The command handler: it applies the four messages to the registry and
    the coin ledger. Each command reads the store, checks existence and
    ownership, calls the ledger and writes the store, and a successful one
    emits exactly one event. The slug function (`slug.Make`) and the ledger's
    verdict on its one call (`bankAccepts`) are parameters. */
module Handler {
  import opened Errors
  import opened Types
  import opened Msgs
  import opened Registry
  import opened Querier
  import Bank

  // Event type and attribute keys of the SDK, and the module's category.
  const EventTypeMessage := "message"
  const AttributeKeyModule := "module"
  const AttributeKeyAction := "action"
  const AttributeKeySender := "sender"
  const AttributeKeyAmount := "amount"
  const AttributeValueCategory := ModuleName

  /** Attribute values before they are printed: addresses and amounts are
      kept as values (their bech32 and decimal forms are not modelled). */
  datatype AttributeValue = Text(text: string) | Address(address: Addr) | Number(number: int)
  datatype Attribute = Attribute(key: string, value: AttributeValue)
  datatype Event = Event(kind: string, attributes: seq<Attribute>)

  /** What a handler returns: the events of its fresh event manager, or an error. */
  datatype HandlerResult = Ok(events: seq<Event>) | Err(error: Error)

  const ErrAlreadyExists := "Branded Token with that name already exists"
  const ErrDoesNotExist := "The given branded token does not exists"
  const ErrFetchFailed := "Failed to fetch the branded token from kvstore"
  const ErrNotOwner := "You are not the owner of that BrandedToken"
  const ErrCreateCredit := "Failure when setting the coins on the coinKeeper"
  const ErrMintCredit := "Failure when adding the coins on the coinKeeper"
  const ErrBurnDebit := "Failure when substracting the coins on the coinKeeper"

  /** The event of a successful command: module category, action and sender,
      and the amount when there is one. */
  function MessageEvent(action: string, sender: Addr, amount: Option<int>): (e: Event)
    ensures e.kind == EventTypeMessage
    ensures |e.attributes| == if amount.Some? then 4 else 3
    ensures e.attributes[0] == Attribute(AttributeKeyModule, Text(AttributeValueCategory))
    ensures e.attributes[1] == Attribute(AttributeKeyAction, Text(action))
    ensures e.attributes[2] == Attribute(AttributeKeySender, Address(sender))
    ensures amount.Some? ==> e.attributes[3] == Attribute(AttributeKeyAmount, Number(amount.value))
  {
    var common := [Attribute(AttributeKeyModule, Text(AttributeValueCategory)),
                   Attribute(AttributeKeyAction, Text(action)),
                   Attribute(AttributeKeySender, Address(sender))];
    Event(EventTypeMessage, if amount.Some? then common + [Attribute(AttributeKeyAmount, Number(amount.value))] else common)
  }

  /** The amount a command's event reports: create, mint and burn have one,
      transfer has none. */
  function EventAmount(msg: Msg): (amount: Option<int>)
    requires !msg.UnknownMsg?
    ensures amount.None? <==> msg.TransferMsg?
  {
    match msg
    case CreateMsg(m) => Some(m.initialSupply)
    case TransferMsg(_) => None
    case MintMsg(m) => Some(m.amount)
    case BurnMsg(m) => Some(m.amount)
  }

  /** The verdict of the existence and ownership checks that transfer, mint
      and burn share, on the store as it was before the command. */
  datatype Gate = Denied(error: Error) | Granted(token: BrandedToken)

  function Authorize(store: map<string, Entry>, tokenSlug: string, from: Addr): (g: Gate)
    ensures g.Granted? <==> tokenSlug in store && store[tokenSlug].Record? && store[tokenSlug].token.GetOwner() == from
    ensures g.Granted? ==> g.token == store[tokenSlug].token
    ensures tokenSlug !in store ==> g == Denied(Failure(ErrInvalidRequest, ErrDoesNotExist))
    ensures tokenSlug in store && store[tokenSlug].Undecodable? ==>
              g == Denied(Wrap(Foreign(store[tokenSlug].reason), ErrFetchFailed))
    ensures tokenSlug in store && store[tokenSlug].Record? && store[tokenSlug].token.GetOwner() != from ==>
              g == Denied(Failure(ErrInvalidPubKey, ErrNotOwner))
  {
    if tokenSlug !in store then Denied(Failure(ErrInvalidRequest, ErrDoesNotExist))
    else
      var (token, err) := Lookup(store, tokenSlug);
      if err.Some? then Denied(Wrap(err.value, ErrFetchFailed))
      else if token.GetOwner() != from then Denied(Failure(ErrInvalidPubKey, ErrNotOwner))
      else Granted(token)
  }

  /** The record mint persists, read as intended: the amount grows by the
      minted amount and nothing else changes. */
  function Minted(t: BrandedToken, amount: int): (r: BrandedToken)
    ensures r.GetName() == t.GetName() && r.GetOwner() == t.GetOwner()
    ensures r.GetAmount() == t.GetAmount() + amount
  {
    t.(coin := t.coin.(amount := t.coin.amount + amount))
  }

  /** The record burn persists, read as intended: the amount shrinks by the
      burnt amount and nothing else changes. */
  function Burned(t: BrandedToken, amount: int): (r: BrandedToken)
    ensures r.GetName() == t.GetName() && r.GetOwner() == t.GetOwner()
    ensures r.GetAmount() == t.GetAmount() - amount
  {
    t.(coin := t.coin.(amount := t.coin.amount - amount))
  }

  /** The record mint persists as written: `Amount.Add` returns a new value,
      which is dropped, so the fetched record is written back unchanged. */
  function MintedAsWritten(t: BrandedToken, amount: int): (r: BrandedToken)
    ensures r == t
  {
    t
  }

  /** The record burn persists as written: the result of `Amount.Sub` is
      dropped as well. */
  function BurnedAsWritten(t: BrandedToken, amount: int): (r: BrandedToken)
    ensures r == t
  {
    t
  }

  /** As written, a mint of a positive amount credits the ledger but persists
      the old amount, so the registry falls behind the ledger. */
  lemma MintAsWrittenLosesTheAmount(t: BrandedToken, amount: int)
    requires amount > 0
    ensures MintedAsWritten(t, amount).GetAmount() == t.GetAmount()
    ensures MintedAsWritten(t, amount).GetAmount() != Minted(t, amount).GetAmount()
  {
  }

  /** As written, a burn of a positive amount debits the ledger but persists
      the old amount, so the registry runs ahead of the ledger. */
  lemma BurnAsWrittenLosesTheAmount(t: BrandedToken, amount: int)
    requires amount > 0
    ensures BurnedAsWritten(t, amount).GetAmount() == t.GetAmount()
    ensures BurnedAsWritten(t, amount).GetAmount() != Burned(t, amount).GetAmount()
  {
  }

  /** Registry invariant: every decodable record sits under the slug of its
      own name. */
  ghost predicate KeysAreSlugs(store: map<string, Entry>, slug: string -> string)
  {
    forall key :: key in store && store[key].Record? ==> key == slug(store[key].token.GetName())
  }

  /** Registry invariant: no decodable record has an empty owner. */
  ghost predicate OwnersNonEmpty(store: map<string, Entry>)
  {
    forall key :: key in store && store[key].Record? ==> !Empty(store[key].token.GetOwner())
  }

  /** Writing a record under the slug of its own name keeps every record
      under the slug of its name. */
  lemma KeysAreSlugsAfterSet(store: map<string, Entry>, slug: string -> string, t: BrandedToken)
    requires KeysAreSlugs(store, slug)
    ensures KeysAreSlugs(store[slug(t.GetName()) := Record(t)], slug)
  {
  }

  /** Removing a key keeps every remaining record under its slug. */
  lemma KeysAreSlugsAfterDelete(store: map<string, Entry>, slug: string -> string, key: string)
    ensures KeysAreSlugs(store, slug) ==> KeysAreSlugs(store - {key}, slug)
  {
  }

  /** Writing a record with a non-empty owner keeps every owner non-empty. */
  lemma OwnersNonEmptyAfterSet(store: map<string, Entry>, key: string, t: BrandedToken)
    requires OwnersNonEmpty(store) && !Empty(t.GetOwner())
    ensures OwnersNonEmpty(store[key := Record(t)])
  {
  }

  /** Removing a key keeps every remaining owner non-empty. */
  lemma OwnersNonEmptyAfterDelete(store: map<string, Entry>, key: string)
    ensures OwnersNonEmpty(store) ==> OwnersNonEmpty(store - {key})
  {
  }

  /** Both invariants after a write, each under the condition it needs. */
  lemma InvariantsAfterSet(store: map<string, Entry>, slug: string -> string, key: string, t: BrandedToken)
    ensures KeysAreSlugs(store, slug) && key == slug(t.GetName()) ==> KeysAreSlugs(store[key := Record(t)], slug)
    ensures OwnersNonEmpty(store) && !Empty(t.GetOwner()) ==> OwnersNonEmpty(store[key := Record(t)])
  {
    if KeysAreSlugs(store, slug) && key == slug(t.GetName()) {
      KeysAreSlugsAfterSet(store, slug, t);
    }
    if OwnersNonEmpty(store) && !Empty(t.GetOwner()) {
      OwnersNonEmptyAfterSet(store, key, t);
    }
  }

  // The effect of each command, as a relation between the registry and the
  // ledger before it, its result, and the registry and the ledger after it.
  // Each relation fixes the result and both new states completely.

  /** `handleMsgCreateBrandedToken`: a duplicate (by raw name) changes
      nothing; otherwise the record is written under the slug and the
      creator is credited, or, when the ledger refuses, the slug is deleted
      again and the ledger is untouched. */
  predicate CreateEffect(msg: MsgCreateBrandedToken, slug: string -> string, bankAccepts: bool,
                         store: map<string, Entry>, ledger: map<Bank.Account, int>,
                         r: HandlerResult, store': map<string, Entry>, ledger': map<Bank.Account, int>)
  {
    if msg.name in store then
      && r == Err(Failure(ErrInvalidRequest, ErrAlreadyExists))
      && store' == store
      && ledger' == ledger
    else if bankAccepts then
      && r == Ok([MessageEvent(msg.Type(), msg.creator, Some(msg.initialSupply))])
      && store' == store[slug(msg.name) := Record(BrandedToken(Coin(msg.name, msg.initialSupply), msg.creator))]
      && ledger' == Bank.Credit(ledger, (msg.creator, msg.name), msg.initialSupply)
    else
      && r == Err(Failure(ErrPanic, ErrCreateCredit))
      && store' == store - {slug(msg.name)}
      && ledger' == ledger
  }

  /** `handleMsgTransferBrandedTokenOwnership`: a refusal by the gate changes
      nothing; otherwise only the owner of the record changes. The ledger
      never moves. */
  predicate TransferEffect(msg: MsgTransferBrandedTokenOwnership, slug: string -> string,
                           store: map<string, Entry>, ledger: map<Bank.Account, int>,
                           r: HandlerResult, store': map<string, Entry>, ledger': map<Bank.Account, int>)
  {
    var g := Authorize(store, slug(msg.name), msg.previousOwner);
    && ledger' == ledger
    && if g.Denied? then
         r == Err(g.error) && store' == store
       else
         && r == Ok([MessageEvent(msg.Type(), msg.previousOwner, None)])
         && store' == store[slug(msg.name) := Record(g.token.SetOwner(msg.newOwner))]
  }

  /** `handleMsgMintBrandedToken`: a refusal by the gate or by the ledger
      changes nothing; otherwise the owner is credited and the record is
      rewritten with the minted amount. */
  predicate MintEffect(msg: MsgMintBrandedToken, slug: string -> string, bankAccepts: bool,
                       store: map<string, Entry>, ledger: map<Bank.Account, int>,
                       r: HandlerResult, store': map<string, Entry>, ledger': map<Bank.Account, int>)
  {
    var g := Authorize(store, slug(msg.name), msg.owner);
    if g.Denied? then
      r == Err(g.error) && store' == store && ledger' == ledger
    else if !bankAccepts then
      r == Err(Failure(ErrPanic, ErrMintCredit)) && store' == store && ledger' == ledger
    else
      && r == Ok([MessageEvent(msg.Type(), msg.owner, Some(msg.amount))])
      && store' == store[slug(msg.name) := Record(Minted(g.token, msg.amount))]
      && ledger' == Bank.Credit(ledger, (msg.owner, g.token.GetName()), msg.amount)
  }

  /** `handleMsgBurnBrandedToken`: a refusal by the gate or by the ledger
      changes nothing; otherwise the owner is debited and the record is
      rewritten with the burnt amount. */
  predicate BurnEffect(msg: MsgBurnBrandedToken, slug: string -> string, bankAccepts: bool,
                       store: map<string, Entry>, ledger: map<Bank.Account, int>,
                       r: HandlerResult, store': map<string, Entry>, ledger': map<Bank.Account, int>)
  {
    var g := Authorize(store, slug(msg.name), msg.owner);
    if g.Denied? then
      r == Err(g.error) && store' == store && ledger' == ledger
    else if !bankAccepts then
      r == Err(Failure(ErrPanic, ErrBurnDebit)) && store' == store && ledger' == ledger
    else
      && r == Ok([MessageEvent(msg.Type(), msg.owner, Some(msg.amount))])
      && store' == store[slug(msg.name) := Record(Burned(g.token, msg.amount))]
      && ledger' == Bank.Debit(ledger, (msg.owner, g.token.GetName()), msg.amount)
  }

  /** `NewHandler`: the effect of the command the message names; a message of
      another type is refused and changes nothing. */
  predicate HandlerEffect(msg: Msg, slug: string -> string, bankAccepts: bool,
                          store: map<string, Entry>, ledger: map<Bank.Account, int>,
                          r: HandlerResult, store': map<string, Entry>, ledger': map<Bank.Account, int>)
  {
    match msg
    case CreateMsg(m) => CreateEffect(m, slug, bankAccepts, store, ledger, r, store', ledger')
    case TransferMsg(m) => TransferEffect(m, slug, store, ledger, r, store', ledger')
    case MintMsg(m) => MintEffect(m, slug, bankAccepts, store, ledger, r, store', ledger')
    case BurnMsg(m) => BurnEffect(m, slug, bankAccepts, store, ledger, r, store', ledger')
    case UnknownMsg(typeName) =>
      && r == Err(Failure(ErrUnknownRequest, "unrecognized " + ModuleName + " message type: " + typeName))
      && store' == store
      && ledger' == ledger
  }

  /** The effect of a message is a function of the state before it and of the
      ledger's verdict: one result, one new registry, one new ledger. */
  lemma HandlerEffectUnique(msg: Msg, slug: string -> string, bankAccepts: bool,
                            store: map<string, Entry>, ledger: map<Bank.Account, int>,
                            r1: HandlerResult, store1: map<string, Entry>, ledger1: map<Bank.Account, int>,
                            r2: HandlerResult, store2: map<string, Entry>, ledger2: map<Bank.Account, int>)
    requires HandlerEffect(msg, slug, bankAccepts, store, ledger, r1, store1, ledger1)
    requires HandlerEffect(msg, slug, bankAccepts, store, ledger, r2, store2, ledger2)
    ensures r1 == r2 && store1 == store2 && ledger1 == ledger2
  {
  }

  /** The registered supply moves with each successful command: by the initial
      supply for a create under a new slug, not at all for a transfer, and by
      the amount for a mint or a burn. */
  lemma HandlerEffectSupply(msg: Msg, slug: string -> string, bankAccepts: bool,
                            store: map<string, Entry>, ledger: map<Bank.Account, int>,
                            r: HandlerResult, store': map<string, Entry>, ledger': map<Bank.Account, int>)
    requires HandlerEffect(msg, slug, bankAccepts, store, ledger, r, store', ledger')
    ensures r.Ok? && msg.CreateMsg? && slug(msg.create.name) !in store ==>
              TotalSupply(store') == TotalSupply(store) + msg.create.initialSupply
    ensures msg.TransferMsg? ==> TotalSupply(store') == TotalSupply(store)
    ensures r.Ok? && msg.MintMsg? ==> TotalSupply(store') == TotalSupply(store) + msg.mint.amount
    ensures r.Ok? && msg.BurnMsg? ==> TotalSupply(store') == TotalSupply(store) - msg.burn.amount
  {
    match msg
    case CreateMsg(m) =>
      if r.Ok? && slug(m.name) !in store {
        TotalSupplyAfterInsert(store, slug(m.name), BrandedToken(Coin(m.name, m.initialSupply), m.creator));
      }
    case TransferMsg(m) =>
      var g := Authorize(store, slug(m.name), m.previousOwner);
      if g.Granted? {
        TotalSupplyAfterRewrite(store, slug(m.name), g.token.SetOwner(m.newOwner));
      }
    case MintMsg(m) =>
      var g := Authorize(store, slug(m.name), m.owner);
      if r.Ok? {
        TotalSupplyAfterRewrite(store, slug(m.name), Minted(g.token, m.amount));
      }
    case BurnMsg(m) =>
      var g := Authorize(store, slug(m.name), m.owner);
      if r.Ok? {
        TotalSupplyAfterRewrite(store, slug(m.name), Burned(g.token, m.amount));
      }
    case UnknownMsg(_) =>
  }

  /** The raw-name duplicate check at work: "My Token" is not a key, but its
      slug "my-token" holds a record. The create overwrites that record, and
      when the ledger then refuses, the compensating delete leaves no record
      under "my-token" at all. */
  lemma CreateRefusalDropsSlugTwin(slug: string -> string, owner: Addr, creator: Addr,
                                   ledger: map<Bank.Account, int>,
                                   r: HandlerResult, store': map<string, Entry>, ledger': map<Bank.Account, int>)
    requires slug("My Token") == "my-token"
    requires CreateEffect(NewMsgCreateBrandedToken("My Token", 5, creator), slug, false,
                          map["my-token" := Record(BrandedToken(Coin("my-token", 7), owner))], ledger,
                          r, store', ledger')
    ensures r == Err(Failure(ErrPanic, ErrCreateCredit))
    ensures store' == map[] && ledger' == ledger
  {
    var store := map["my-token" := Record(BrandedToken(Coin("my-token", 7), owner))];
    assert "My Token" !in store;
    assert store - {"my-token"} == map[];
  }

  /** `handleMsgCreateBrandedToken`. The duplicate check asks for the raw
      name while the record is stored under its slug; the slug is reserved
      before the ledger call and deleted again if that call fails. */
  method HandleMsgCreateBrandedToken(k: Keeper, msg: MsgCreateBrandedToken, slug: string -> string, bankAccepts: bool)
    returns (r: HandlerResult)
    modifies k, k.coinKeeper
    ensures CreateEffect(msg, slug, bankAccepts, old(k.store), old(k.coinKeeper.balances), r, k.store, k.coinKeeper.balances)
    ensures r.Ok? && slug(msg.name) !in old(k.store) ==>
              TotalSupply(k.store) == TotalSupply(old(k.store)) + msg.initialSupply
    ensures KeysAreSlugs(old(k.store), slug) ==> KeysAreSlugs(k.store, slug)
    ensures OwnersNonEmpty(old(k.store)) && msg.ValidateBasic().None? ==> OwnersNonEmpty(k.store)
  {
    var tokenSlug := slug(msg.name);

    if k.HasBrandedToken(msg.name) {
      return Err(Failure(ErrInvalidRequest, ErrAlreadyExists));
    }

    var (newBrandedToken, _) := k.GetBrandedToken(tokenSlug);
    newBrandedToken := newBrandedToken.(coin := Coin(msg.name, msg.initialSupply));
    newBrandedToken := newBrandedToken.(owner := msg.creator);
    InvariantsAfterSet(k.store, slug, tokenSlug, newBrandedToken);
    k.SetBrandedToken(tokenSlug, newBrandedToken);

    var ok := k.coinKeeper.AddCoins(newBrandedToken.GetOwner(), newBrandedToken.coin, bankAccepts);
    if !ok {
      KeysAreSlugsAfterDelete(k.store, slug, tokenSlug);
      OwnersNonEmptyAfterDelete(k.store, tokenSlug);
      k.DeleteBrandedToken(tokenSlug);
      assert k.store == old(k.store) - {tokenSlug};
      return Err(Failure(ErrPanic, ErrCreateCredit));
    }

    if tokenSlug !in old(k.store) {
      TotalSupplyAfterInsert(old(k.store), tokenSlug, newBrandedToken);
    }
    r := Ok([MessageEvent(msg.Type(), msg.creator, Some(msg.initialSupply))]);
  }

  /** `handleMsgTransferBrandedTokenOwnership`: only the owner field of the
      record changes; the ledger is not called. */
  method HandleMsgTransferBrandedTokenOwnership(k: Keeper, msg: MsgTransferBrandedTokenOwnership, slug: string -> string)
    returns (r: HandlerResult)
    modifies k
    ensures TransferEffect(msg, slug, old(k.store), old(k.coinKeeper.balances), r, k.store, k.coinKeeper.balances)
    ensures TotalSupply(k.store) == TotalSupply(old(k.store))
    ensures KeysAreSlugs(old(k.store), slug) ==> KeysAreSlugs(k.store, slug)
    ensures OwnersNonEmpty(old(k.store)) && msg.ValidateBasic().None? ==> OwnersNonEmpty(k.store)
  {
    var tokenSlug := slug(msg.name);

    var gate := Authorize(k.store, tokenSlug, msg.previousOwner);
    if gate.Denied? {
      return Err(gate.error);
    }
    var brandedToken := gate.token;

    brandedToken := brandedToken.(owner := msg.newOwner);
    TotalSupplyAfterRewrite(k.store, tokenSlug, brandedToken);
    InvariantsAfterSet(k.store, slug, tokenSlug, brandedToken);
    k.SetBrandedToken(tokenSlug, brandedToken);

    r := Ok([MessageEvent(msg.Type(), msg.previousOwner, None)]);
  }

  /** `handleMsgMintBrandedToken`: the ledger is credited first, and the
      record is rewritten only once the credit succeeded. */
  method HandleMsgMintBrandedToken(k: Keeper, msg: MsgMintBrandedToken, slug: string -> string, bankAccepts: bool)
    returns (r: HandlerResult)
    modifies k, k.coinKeeper
    ensures MintEffect(msg, slug, bankAccepts, old(k.store), old(k.coinKeeper.balances), r, k.store, k.coinKeeper.balances)
    ensures r.Ok? ==> TotalSupply(k.store) == TotalSupply(old(k.store)) + msg.amount
    ensures var g := Authorize(old(k.store), slug(msg.name), msg.owner);
            r.Ok? ==>
              && g.Granted?
              && var account := (msg.owner, g.token.GetName());
                 Bank.BalanceIn(k.coinKeeper.balances, account) - Bank.BalanceIn(old(k.coinKeeper.balances), account)
                 == Amount(k.store, slug(msg.name)) - Amount(old(k.store), slug(msg.name))
    ensures KeysAreSlugs(old(k.store), slug) ==> KeysAreSlugs(k.store, slug)
    ensures OwnersNonEmpty(old(k.store)) ==> OwnersNonEmpty(k.store)
  {
    var tokenSlug := slug(msg.name);

    var gate := Authorize(k.store, tokenSlug, msg.owner);
    if gate.Denied? {
      return Err(gate.error);
    }
    var brandedToken := gate.token;

    var ok := k.coinKeeper.AddCoins(msg.owner, Coin(brandedToken.GetName(), msg.amount), bankAccepts);
    if !ok {
      return Err(Failure(ErrPanic, ErrMintCredit));
    }

    brandedToken := Minted(brandedToken, msg.amount);
    TotalSupplyAfterRewrite(k.store, tokenSlug, brandedToken);
    InvariantsAfterSet(k.store, slug, tokenSlug, brandedToken);
    k.SetBrandedToken(tokenSlug, brandedToken);

    r := Ok([MessageEvent(msg.Type(), msg.owner, Some(msg.amount))]);
  }

  /** `handleMsgBurnBrandedToken`: the ledger is debited first, and the
      record is rewritten only once the debit succeeded. */
  method HandleMsgBurnBrandedToken(k: Keeper, msg: MsgBurnBrandedToken, slug: string -> string, bankAccepts: bool)
    returns (r: HandlerResult)
    modifies k, k.coinKeeper
    ensures BurnEffect(msg, slug, bankAccepts, old(k.store), old(k.coinKeeper.balances), r, k.store, k.coinKeeper.balances)
    ensures r.Ok? ==> TotalSupply(k.store) == TotalSupply(old(k.store)) - msg.amount
    ensures var g := Authorize(old(k.store), slug(msg.name), msg.owner);
            r.Ok? ==>
              && g.Granted?
              && var account := (msg.owner, g.token.GetName());
                 Bank.BalanceIn(k.coinKeeper.balances, account) - Bank.BalanceIn(old(k.coinKeeper.balances), account)
                 == Amount(k.store, slug(msg.name)) - Amount(old(k.store), slug(msg.name))
    ensures KeysAreSlugs(old(k.store), slug) ==> KeysAreSlugs(k.store, slug)
    ensures OwnersNonEmpty(old(k.store)) ==> OwnersNonEmpty(k.store)
  {
    var tokenSlug := slug(msg.name);

    var gate := Authorize(k.store, tokenSlug, msg.owner);
    if gate.Denied? {
      return Err(gate.error);
    }
    var brandedToken := gate.token;

    var ok := k.coinKeeper.SubtractCoins(msg.owner, Coin(brandedToken.GetName(), msg.amount), bankAccepts);
    if !ok {
      return Err(Failure(ErrPanic, ErrBurnDebit));
    }

    brandedToken := Burned(brandedToken, msg.amount);
    TotalSupplyAfterRewrite(k.store, tokenSlug, brandedToken);
    InvariantsAfterSet(k.store, slug, tokenSlug, brandedToken);
    k.SetBrandedToken(tokenSlug, brandedToken);

    r := Ok([MessageEvent(msg.Type(), msg.owner, Some(msg.amount))]);
  }

  /** `NewHandler`: dispatch on the message's variant. A message of another
      type is refused without any change. */
  method NewHandler(k: Keeper, msg: Msg, slug: string -> string, bankAccepts: bool) returns (r: HandlerResult)
    modifies k, k.coinKeeper
    ensures HandlerEffect(msg, slug, bankAccepts, old(k.store), old(k.coinKeeper.balances), r, k.store, k.coinKeeper.balances)
    ensures r.Ok? ==> !msg.UnknownMsg? && r.events == [MessageEvent(msg.Type(), msg.Signer(), EventAmount(msg))]
    ensures r.Err? ==> k.coinKeeper.balances == old(k.coinKeeper.balances)
    ensures r.Err? && !msg.CreateMsg? ==> k.store == old(k.store)
    ensures r.Err? && msg.CreateMsg? ==> k.store == old(k.store) || k.store == old(k.store) - {slug(msg.create.name)}
    ensures KeysAreSlugs(old(k.store), slug) ==> KeysAreSlugs(k.store, slug)
    ensures OwnersNonEmpty(old(k.store)) && msg.Validated() ==> OwnersNonEmpty(k.store)
  {
    match msg
    case CreateMsg(m) =>
      r := HandleMsgCreateBrandedToken(k, m, slug, bankAccepts);
    case TransferMsg(m) =>
      r := HandleMsgTransferBrandedTokenOwnership(k, m, slug);
    case MintMsg(m) =>
      r := HandleMsgMintBrandedToken(k, m, slug, bankAccepts);
    case BurnMsg(m) =>
      r := HandleMsgBurnBrandedToken(k, m, slug, bankAccepts);
    case UnknownMsg(typeName) =>
      r := Err(Failure(ErrUnknownRequest, "unrecognized " + ModuleName + " message type: " + typeName));
  }
}
