/**
 * The hand-written client packers of the wallet contract's messages: each
 * builds a cell field by field through a `Builder`, and `WalletInit` builds
 * the ordered init stack handed to deployment.
 *
 * Every packer is a method proved equal to a layout function (`...Layout`),
 * and each layout is given an inverse (`Decode...`) with a round-trip lemma.
 */
module WalletApi {
  import opened Wrappers
  import opened Bits
  import opened Cells

  // ---------------------------------------------------------------------------
  // Optional bodies: a presence bit, and the body as one reference when present.

  function PresenceBit(body: Option<Cell>): (r: seq<bool>)
    ensures |r| == 1 && (r[0] <==> body.Some?)
  {
    [body.Some?]
  }

  function BodyRefs(body: Option<Cell>): (r: seq<Cell>)
    ensures |r| == 1 <==> body.Some?
    ensures |r| <= 1
    ensures body.Some? ==> r[0] == body.value
  {
    if body.Some? then [body.value] else []
  }

  /** Reads the optional body back from its presence bit and the references. */
  function ReadBody(present: bool, refs: seq<Cell>): (r: Option<Option<Cell>>)
    ensures r.Some? ==> refs == BodyRefs(r.value)
  {
    if present && |refs| == 1 then Some(Some(refs[0]))
    else if !present && refs == [] then Some(None)
    else None
  }

  // ---------------------------------------------------------------------------
  // SendParameters

  datatype SendParameters = SendParameters(
    bounce: bool, to: Address, value: int, mode: int, body: Option<Cell>)

  const SendParametersBits: nat := 1 + AddressLen + 257 + 257 + 1

  /** The inputs every `store*` call of `packSendParameters` accepts. */
  predicate SendParametersFit(p: SendParameters)
  {
    AddressFits(p.to) && IntFits(p.value, 257) && IntFits(p.mode, 257)
  }

  /** The cell `packSendParameters` builds. */
  function SendParametersCell(p: SendParameters): (c: Cell)
    requires SendParametersFit(p)
    ensures Fits(c) && |c.bits| == SendParametersBits == 783
    ensures |c.refs| == 1 <==> p.body.Some?
    ensures |c.refs| <= 1
  {
    Cell([p.bounce] + AddressBits(p.to) + IntBits(p.value, 257) + IntBits(p.mode, 257)
           + PresenceBit(p.body),
         BodyRefs(p.body))
  }

  function SendParametersLayout(p: SendParameters): Result<Cell, CellError>
  {
    if SendParametersFit(p) then Ok(SendParametersCell(p)) else Err(OutOfRange)
  }

  method PackSendParameters(src: SendParameters) returns (r: Result<Cell, CellError>)
    ensures r == SendParametersLayout(src)
    ensures r.Ok? <==> SendParametersFit(src)
  {
    var b := new Builder();
    var o := b.StoreBit(src.bounce);
    assert b.bits == [src.bounce] && b.refs == [];
    o := b.StoreAddress(src.to);
    if o.Fail? {
      return Err(o.error);
    }
    o := b.StoreInt(src.value, 257);
    if o.Fail? {
      return Err(o.error);
    }
    o := b.StoreInt(src.mode, 257);
    if o.Fail? {
      return Err(o.error);
    }
    assert |b.bits| == 782 && b.refs == [];
    ghost var fields := b.bits;
    if src.body.Some? {
      o := b.StoreBit(true);
      o := b.StoreRef(src.body.value);
    } else {
      o := b.StoreBit(false);
    }
    assert b.bits == fields + PresenceBit(src.body) && b.refs == BodyRefs(src.body);
    var c := b.EndCell();
    assert c == SendParametersCell(src);
    r := Ok(c);
  }

  /** Every field of `packSendParameters` sits at a fixed bit offset. */
  lemma SendParametersOffsets(p: SendParameters)
    requires SendParametersFit(p)
    ensures var c := SendParametersCell(p);
      && c.bits[0] == p.bounce
      && c.bits[1..268] == AddressBits(p.to)
      && IntValue(c.bits[268..525]) == p.value
      && IntValue(c.bits[525..782]) == p.mode
      && c.bits[782] == p.body.Some?
  {
    var c := SendParametersCell(p);
    assert c.bits[1..268] == AddressBits(p.to);
    assert c.bits[268..525] == IntBits(p.value, 257);
    assert c.bits[525..782] == IntBits(p.mode, 257);
    IntValueOfBits(p.value, 257);
    IntValueOfBits(p.mode, 257);
  }

  /** Unpacks a `SendParameters` cell, reading every field at its offset. */
  function DecodeSendParameters(c: Cell): (r: Option<SendParameters>)
    ensures r.Some? ==> SendParametersFit(r.value)
  {
    if |c.bits| != SendParametersBits then None
    else
      match (ReadAddress(c.bits[1..268]), ReadBody(c.bits[782], c.refs))
      case (Some(to), Some(body)) =>
        Some(SendParameters(c.bits[0], to, IntValue(c.bits[268..525]),
                            IntValue(c.bits[525..782]), body))
      case _ => None
  }

  lemma SendParametersRoundTrip(p: SendParameters)
    requires SendParametersFit(p)
    ensures DecodeSendParameters(SendParametersCell(p)) == Some(p)
  {
    SendParametersOffsets(p);
    AddressRoundTrip(p.to);
  }

  // ---------------------------------------------------------------------------
  // Transfer

  datatype Transfer = Transfer(
    seqno: int, mode: int, to: Address, amount: int, body: Option<Cell>)

  /** Bit offset of the address, after the 32-bit seqno and the 8-bit mode. */
  const TransferAddressAt: nat := 40
  /** Bit offset of the coins amount, right after the address. */
  const TransferAmountAt: nat := TransferAddressAt + AddressLen

  /** The inputs every `store*` call of `packTransfer` accepts. */
  predicate TransferFits(t: Transfer)
  {
    0 <= t.seqno < Pow2(32) && 0 <= t.mode < Pow2(8) && AddressFits(t.to) && CoinsFit(t.amount)
  }

  /** The cell `packTransfer` builds. */
  function TransferCell(t: Transfer): (c: Cell)
    requires TransferFits(t)
    ensures Fits(c) && |c.bits| == TransferAmountAt + |CoinsBits(t.amount)| + 1 <= 432
    ensures |c.refs| == 1 <==> t.body.Some?
    ensures |c.refs| <= 1
  {
    Cell(TransferFields(t) + PresenceBit(t.body), BodyRefs(t.body))
  }

  function TransferLayout(t: Transfer): Result<Cell, CellError>
  {
    if TransferFits(t) then Ok(TransferCell(t)) else Err(OutOfRange)
  }

  /** The fixed bits of a `Transfer`: seqno, mode, address and amount. */
  function TransferFields(t: Transfer): (bs: seq<bool>)
    requires TransferFits(t)
    ensures |bs| == TransferAmountAt + |CoinsBits(t.amount)|
  {
    UintBits(t.seqno, 32) + UintBits(t.mode, 8) + AddressBits(t.to) + CoinsBits(t.amount)
  }

  /** The first four `store*` calls of `packTransfer`, on an empty builder. */
  method StoreTransferFields(b: Builder, src: Transfer) returns (o: Outcome<CellError>)
    requires b.Valid() && b.bits == [] && b.refs == []
    modifies b
    ensures b.Valid() && b.refs == []
    ensures o == if TransferFits(src) then Pass else Fail(OutOfRange)
    ensures o.Pass? ==> b.bits == TransferFields(src)
  {
    o := b.StoreUint(src.seqno, 32);
    if o.Fail? {
      assert !TransferFits(src);
      return;
    }
    assert 0 <= src.seqno < Pow2(32) && b.bits == UintBits(src.seqno, 32);
    o := b.StoreUint(src.mode, 8);
    if o.Fail? {
      assert !TransferFits(src);
      return;
    }
    ghost var head := UintBits(src.seqno, 32) + UintBits(src.mode, 8);
    assert 0 <= src.mode < Pow2(8) && b.bits == head && |head| == 40;
    o := b.StoreAddress(src.to);
    if o.Fail? {
      assert !TransferFits(src);
      return;
    }
    head := head + AddressBits(src.to);
    assert AddressFits(src.to) && b.bits == head && |head| == 307;
    o := b.StoreCoins(src.amount);
    if o.Fail? {
      assert !TransferFits(src);
      return;
    }
    assert TransferFits(src) && b.bits == TransferFields(src);
  }

  method PackTransfer(src: Transfer) returns (r: Result<Cell, CellError>)
    ensures r == TransferLayout(src)
    ensures r.Ok? <==> TransferFits(src)
  {
    var b := new Builder();
    var o := StoreTransferFields(b, src);
    if o.Fail? {
      return Err(o.error);
    }
    if src.body.Some? {
      o := b.StoreBit(true);
      o := b.StoreRef(src.body.value);
    } else {
      o := b.StoreBit(false);
    }
    assert b.bits == TransferFields(src) + PresenceBit(src.body) && b.refs == BodyRefs(src.body);
    var c := b.EndCell();
    assert c == TransferCell(src);
    r := Ok(c);
  }

  /**
   * The fields of `packTransfer` in declaration order: seqno in bits 0..32,
   * mode in bits 32..40, the address, the coins amount, then the presence bit last.
   */
  lemma TransferOffsets(t: Transfer)
    requires TransferFits(t)
    ensures var c := TransferCell(t);
      var n := |CoinsBits(t.amount)|;
      && UintValue(c.bits[..32]) == t.seqno
      && UintValue(c.bits[32..TransferAddressAt]) == t.mode
      && c.bits[TransferAddressAt..TransferAmountAt] == AddressBits(t.to)
      && ReadCoins(c.bits[TransferAmountAt..]) == Some((t.amount, n))
      && c.bits[TransferAmountAt + n] == t.body.Some?
  {
    TransferFieldBits(t);
    var c := TransferCell(t);
    UintValueOfBits(t.seqno, 32);
    UintValueOfBits(t.mode, 8);
    CoinsRoundTrip(t.amount, PresenceBit(t.body));
  }

  /** The bits of `packTransfer`, cut at the field boundaries. */
  lemma TransferFieldBits(t: Transfer)
    requires TransferFits(t)
    ensures var c := TransferCell(t);
      && c.bits[..32] == UintBits(t.seqno, 32)
      && c.bits[32..TransferAddressAt] == UintBits(t.mode, 8)
      && c.bits[TransferAddressAt..TransferAmountAt] == AddressBits(t.to)
      && c.bits[TransferAmountAt..] == CoinsBits(t.amount) + PresenceBit(t.body)
  {
    ConcatSlices(UintBits(t.seqno, 32), UintBits(t.mode, 8), AddressBits(t.to),
                 CoinsBits(t.amount), PresenceBit(t.body));
  }

  /** Unpacks a `Transfer` cell field by field. */
  function DecodeTransfer(c: Cell): (r: Option<Transfer>)
    ensures r.Some? ==> TransferFits(r.value)
  {
    if |c.bits| <= TransferAmountAt then None
    else
      match (ReadAddress(c.bits[TransferAddressAt..TransferAmountAt]),
             ReadCoins(c.bits[TransferAmountAt..]))
      case (Some(to), Some((amount, n))) =>
        if TransferAmountAt + n + 1 != |c.bits| then None
        else
          (match ReadBody(c.bits[TransferAmountAt + n], c.refs)
           case Some(body) =>
             Pow2Values();
             Some(Transfer(UintValue(c.bits[..32]), UintValue(c.bits[32..TransferAddressAt]),
                           to, amount, body))
           case None => None)
      case _ => None
  }

  lemma TransferRoundTrip(t: Transfer)
    requires TransferFits(t)
    ensures DecodeTransfer(TransferCell(t)) == Some(t)
  {
    TransferOffsets(t);
    AddressRoundTrip(t.to);
  }

  // ---------------------------------------------------------------------------
  // TransferMessage: the opcode, the signature as the first reference, and the
  // transfer's own bits and references copied inline (not a child cell).

  datatype TransferMessage = TransferMessage(signature: Cell, transfer: Transfer)

  const TransferMessageOpcode: int := 1843760589

  lemma OpcodeFits()
    ensures IntFits(TransferMessageOpcode, 32)
  {
    Pow2Values();
  }

  /** The cell `packTransferMessage` builds. */
  function TransferMessageCell(m: TransferMessage): (c: Cell)
    requires TransferFits(m.transfer)
    ensures Fits(c) && |c.bits| <= 32 + 432
    ensures 1 <= |c.refs| <= 2 && c.refs[0] == m.signature
    ensures |c.refs| == 2 <==> m.transfer.body.Some?
  {
    OpcodeFits();
    var t := TransferCell(m.transfer);
    Cell(IntBits(TransferMessageOpcode, 32) + t.bits, [m.signature] + t.refs)
  }

  function TransferMessageLayout(m: TransferMessage): Result<Cell, CellError>
  {
    if TransferFits(m.transfer) then Ok(TransferMessageCell(m)) else Err(OutOfRange)
  }

  method PackTransferMessage(src: TransferMessage) returns (r: Result<Cell, CellError>)
    ensures r == TransferMessageLayout(src)
    ensures r.Ok? <==> TransferFits(src.transfer)
  {
    var b := new Builder();
    OpcodeFits();
    var o := b.StoreInt(TransferMessageOpcode, 32);
    o := b.StoreRef(src.signature);
    var t := PackTransfer(src.transfer);
    if t.Err? {
      return Err(t.error);
    }
    assert t.value == TransferCell(src.transfer);
    assert b.bits == IntBits(TransferMessageOpcode, 32) && b.refs == [src.signature];
    o := b.StoreCellCopy(t.value);
    var c := b.EndCell();
    r := Ok(c);
  }

  /**
   * The message begins with the opcode as a 32-bit signed integer; the rest of
   * its bits and every reference after the signature are exactly the transfer's.
   */
  lemma TransferMessageInlinesTransfer(m: TransferMessage)
    requires TransferFits(m.transfer)
    ensures var c := TransferMessageCell(m);
      var t := TransferCell(m.transfer);
      && IntValue(c.bits[..32]) == TransferMessageOpcode
      && c.bits[32..] == t.bits
      && c.refs == [m.signature] + t.refs
  {
    var c := TransferMessageCell(m);
    OpcodeFits();
    assert c.bits[..32] == IntBits(TransferMessageOpcode, 32);
    IntValueOfBits(TransferMessageOpcode, 32);
  }

  /** Unpacks a `TransferMessage` cell, first checking its opcode. */
  function DecodeTransferMessage(c: Cell): (r: Option<TransferMessage>)
    ensures r.Some? ==> TransferFits(r.value.transfer)
    ensures r.Some? ==> |c.bits| >= 32 && IntValue(c.bits[..32]) == TransferMessageOpcode
  {
    if |c.bits| < 32 || |c.refs| == 0 || IntValue(c.bits[..32]) != TransferMessageOpcode then None
    else
      match DecodeTransfer(Cell(c.bits[32..], c.refs[1..]))
      case Some(t) => Some(TransferMessage(c.refs[0], t))
      case None => None
  }

  lemma TransferMessageRoundTrip(m: TransferMessage)
    requires TransferFits(m.transfer)
    ensures DecodeTransferMessage(TransferMessageCell(m)) == Some(m)
  {
    var c := TransferMessageCell(m);
    TransferMessageInlinesTransfer(m);
    assert c.refs[1..] == TransferCell(m.transfer).refs;
    assert Cell(c.bits[32..], c.refs[1..]) == TransferCell(m.transfer);
    TransferRoundTrip(m.transfer);
  }

  // ---------------------------------------------------------------------------
  // Wallet_init: the init stack handed to deployment.

  datatype StackItem = StackInt(value: int) | StackCell(cell: Cell)

  /** What `Wallet_init` hands to `deploy`, leaving out the contract code blob. */
  datatype Deployment = Deployment(initFunction: string, stack: seq<StackItem>)

  /** Reads the init parameters back from a stack: `key`, then `walletId`. */
  function ReadInitArgs(stack: seq<StackItem>): (r: Option<(int, int)>)
    ensures r.Some? <==> |stack| == 2 && stack[0].StackInt? && stack[1].StackInt?
    ensures r.Some? ==> stack == [StackInt(r.value.0), StackInt(r.value.1)]
  {
    if |stack| == 2 && stack[0].StackInt? && stack[1].StackInt?
    then Some((stack[0].value, stack[1].value))
    else None
  }

  method WalletInit(key: int, walletId: int) returns (d: Deployment)
    ensures d.initFunction == "init_Wallet"
    ensures ReadInitArgs(d.stack) == Some((key, walletId))
  {
    var stack: seq<StackItem> := [];
    stack := stack + [StackInt(key)];
    stack := stack + [StackInt(walletId)];
    d := Deployment("init_Wallet", stack);
  }
}
