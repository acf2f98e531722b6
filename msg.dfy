/** The four messages of the module: their constructors, their `Type`, the
    account that must sign them, and the stateless checks of `ValidateBasic`.
    Checks run in a fixed order and the first that fails gives the error. */
module Msgs {
  import opened Errors
  import opened Types

  const CreateBrandedTokenConst := "CreateBrandedToken"
  const MsgTransferBrandedTokenOwnershipConst := "TransferBrandedTokenOwnership"
  const MsgMintBrandedTokenConst := "MintBrandedToken"
  const MsgBurnBrandedTokenConst := "BurnBrandedToken"

  /** Create a token named `name` with `initialSupply` units, owned by `creator`. */
  datatype MsgCreateBrandedToken = MsgCreateBrandedToken(name: string, initialSupply: int, creator: Addr)
  {
    function Type(): (t: string)
      ensures t == CreateBrandedTokenConst
    {
      CreateBrandedTokenConst
    }

    function GetSigners(): (signers: seq<Addr>)
      ensures signers == [creator]
    {
      [creator]
    }

    /** What ValidateBasic accepts: a creator, a name, and a supply that is
        not negative (a supply of zero is accepted). */
    predicate WellFormed()
    {
      !Empty(creator) && |name| > 0 && initialSupply >= 0
    }

    function ValidateBasic(): (err: Option<Error>)
      ensures err.None? <==> WellFormed()
      ensures Empty(creator) ==> err == Some(Failure(ErrInvalidAddress, "creator can't be empty"))
      ensures !Empty(creator) && |name| == 0 ==> err == Some(Failure(ErrInvalidRequest, "name can't be empty"))
      ensures !Empty(creator) && |name| > 0 && initialSupply < 0 ==>
                err == Some(Failure(ErrInvalidRequest, "supply can't be less or equal than 0"))
    {
      if Empty(creator) then Some(Failure(ErrInvalidAddress, "creator can't be empty"))
      else if |name| <= 0 then Some(Failure(ErrInvalidRequest, "name can't be empty"))
      else if initialSupply < 0 then Some(Failure(ErrInvalidRequest, "supply can't be less or equal than 0"))
      else None
    }
  }

  function NewMsgCreateBrandedToken(name: string, supply: int, creator: Addr): (msg: MsgCreateBrandedToken)
    ensures msg.name == name && msg.initialSupply == supply && msg.creator == creator
  {
    MsgCreateBrandedToken(name, supply, creator)
  }

  /** Hand the token named `name` from `previousOwner` to `newOwner`. */
  datatype MsgTransferBrandedTokenOwnership =
    MsgTransferBrandedTokenOwnership(name: string, previousOwner: Addr, newOwner: Addr)
  {
    function Type(): (t: string)
      ensures t == MsgTransferBrandedTokenOwnershipConst
    {
      MsgTransferBrandedTokenOwnershipConst
    }

    function GetSigners(): (signers: seq<Addr>)
      ensures signers == [previousOwner]
    {
      [previousOwner]
    }

    /** What ValidateBasic accepts: both addresses and a name; there is no
        amount to check. */
    predicate WellFormed()
    {
      !Empty(previousOwner) && !Empty(newOwner) && |name| > 0
    }

    function ValidateBasic(): (err: Option<Error>)
      ensures err.None? <==> WellFormed()
      ensures Empty(previousOwner) ==> err == Some(Failure(ErrInvalidAddress, "previous_owner can't be empty"))
      ensures !Empty(previousOwner) && Empty(newOwner) ==>
                err == Some(Failure(ErrInvalidAddress, "new_owner can't be empty"))
      ensures !Empty(previousOwner) && !Empty(newOwner) && |name| == 0 ==>
                err == Some(Failure(ErrInvalidRequest, "name can't be empty"))
    {
      if Empty(previousOwner) then Some(Failure(ErrInvalidAddress, "previous_owner can't be empty"))
      else if Empty(newOwner) then Some(Failure(ErrInvalidAddress, "new_owner can't be empty"))
      else if |name| <= 0 then Some(Failure(ErrInvalidRequest, "name can't be empty"))
      else None
    }
  }

  function NewMsgTransferBrandedTokenOwnership(name: string, previousOwner: Addr, newOwner: Addr)
    : (msg: MsgTransferBrandedTokenOwnership)
    ensures msg.name == name && msg.previousOwner == previousOwner && msg.newOwner == newOwner
  {
    MsgTransferBrandedTokenOwnership(name, previousOwner, newOwner)
  }

  /** Checks shared by mint and burn: an owner, a name, a positive amount. */
  function ValidateAmountMsg(owner: Addr, name: string, amount: int): (err: Option<Error>)
    ensures err.None? <==> !Empty(owner) && |name| > 0 && amount > 0
    ensures Empty(owner) ==> err == Some(Failure(ErrInvalidAddress, "owner can't be empty"))
    ensures !Empty(owner) && |name| == 0 ==> err == Some(Failure(ErrInvalidRequest, "name can't be empty"))
    ensures !Empty(owner) && |name| > 0 && amount <= 0 ==>
              err == Some(Failure(ErrInvalidRequest, "amount can't be empty"))
  {
    if Empty(owner) then Some(Failure(ErrInvalidAddress, "owner can't be empty"))
    else if |name| <= 0 then Some(Failure(ErrInvalidRequest, "name can't be empty"))
    else if amount <= 0 then Some(Failure(ErrInvalidRequest, "amount can't be empty"))
    else None
  }

  /** Issue `amount` more units of the token named `name` to its owner. */
  datatype MsgMintBrandedToken = MsgMintBrandedToken(owner: Addr, name: string, amount: int)
  {
    function Type(): (t: string)
      ensures t == MsgMintBrandedTokenConst
    {
      MsgMintBrandedTokenConst
    }

    function GetSigners(): (signers: seq<Addr>)
      ensures signers == [owner]
    {
      [owner]
    }

    function ValidateBasic(): (err: Option<Error>)
      ensures err.None? <==> !Empty(owner) && |name| > 0 && amount > 0
      ensures err == ValidateAmountMsg(owner, name, amount)
    {
      ValidateAmountMsg(owner, name, amount)
    }
  }

  function NewMsgBrandedTokenMint(owner: Addr, name: string, amount: int): (msg: MsgMintBrandedToken)
    ensures msg.owner == owner && msg.name == name && msg.amount == amount
  {
    MsgMintBrandedToken(owner, name, amount)
  }

  /** Withdraw `amount` units of the token named `name` from its owner. */
  datatype MsgBurnBrandedToken = MsgBurnBrandedToken(owner: Addr, name: string, amount: int)
  {
    function Type(): (t: string)
      ensures t == MsgBurnBrandedTokenConst
    {
      MsgBurnBrandedTokenConst
    }

    function GetSigners(): (signers: seq<Addr>)
      ensures signers == [owner]
    {
      [owner]
    }

    function ValidateBasic(): (err: Option<Error>)
      ensures err.None? <==> !Empty(owner) && |name| > 0 && amount > 0
      ensures err == ValidateAmountMsg(owner, name, amount)
    {
      ValidateAmountMsg(owner, name, amount)
    }
  }

  function NewMsgBurnBrandedToken(owner: Addr, name: string, amount: int): (msg: MsgBurnBrandedToken)
    ensures msg.owner == owner && msg.name == name && msg.amount == amount
  {
    MsgBurnBrandedToken(owner, name, amount)
  }

  /** A message routed to the module: one of its four, or a message of some
      other type, known only by the name of that type. */
  datatype Msg =
    | CreateMsg(create: MsgCreateBrandedToken)
    | TransferMsg(transfer: MsgTransferBrandedTokenOwnership)
    | MintMsg(mint: MsgMintBrandedToken)
    | BurnMsg(burn: MsgBurnBrandedToken)
    | UnknownMsg(typeName: string)
  {
    function Type(): (t: string)
      requires !UnknownMsg?
      ensures CreateMsg? ==> t == CreateBrandedTokenConst
      ensures TransferMsg? ==> t == MsgTransferBrandedTokenOwnershipConst
      ensures MintMsg? ==> t == MsgMintBrandedTokenConst
      ensures BurnMsg? ==> t == MsgBurnBrandedTokenConst
    {
      match this
      case CreateMsg(m) => m.Type()
      case TransferMsg(m) => m.Type()
      case MintMsg(m) => m.Type()
      case BurnMsg(m) => m.Type()
    }

    /** The one signer of the message: the first of `GetSigners`. */
    function Signer(): (signer: Addr)
      requires !UnknownMsg?
      ensures CreateMsg? ==> [signer] == create.GetSigners()
      ensures TransferMsg? ==> [signer] == transfer.GetSigners()
      ensures MintMsg? ==> [signer] == mint.GetSigners()
      ensures BurnMsg? ==> [signer] == burn.GetSigners()
    {
      match this
      case CreateMsg(m) => m.GetSigners()[0]
      case TransferMsg(m) => m.GetSigners()[0]
      case MintMsg(m) => m.GetSigners()[0]
      case BurnMsg(m) => m.GetSigners()[0]
    }

    /** The message passed the `ValidateBasic` of its type; a message of
        another module is not checked here. */
    predicate Validated()
    {
      match this
      case CreateMsg(m) => m.ValidateBasic().None?
      case TransferMsg(m) => m.ValidateBasic().None?
      case MintMsg(m) => m.ValidateBasic().None?
      case BurnMsg(m) => m.ValidateBasic().None?
      case UnknownMsg(_) => true
    }
  }

  /** The four message types are told apart by their `Type`. */
  lemma TypesDistinct(a: Msg, b: Msg)
    requires !a.UnknownMsg? && !b.UnknownMsg?
    ensures a.Type() == b.Type() <==> a.CreateMsg? == b.CreateMsg? && a.TransferMsg? == b.TransferMsg?
                                        && a.MintMsg? == b.MintMsg? && a.BurnMsg? == b.BurnMsg?
  {
  }
}
