/** The six Mantle variants as the heap objects the Go structs are: pointer
    fields, byte slices as arrays, and `copy()` building a fresh object whose
    fields are then filled in one by one. `Body()` is the value an object
    currently holds; the accessors of MantleTypes read that value. */
module MantleObjects {
  import opened Common
  import opened MantleTypes

  /** Go's `*common.Address`: a heap cell that may be shared. */
  class AddressCell {
    var addr: Address

    constructor (a: Address)
      ensures addr == a
    {
      addr := a;
    }
  }

  /** The address a possibly nil pointer refers to. */
  function Deref(c: AddressCell?): Option<Address>
    reads c
  {
    if c == null then None else Some(c.addr)
  }

  /** Twelve zero bytes, then the address: one address word. */
  method AppendAddressWord(head: seq<byte>, a: Address) returns (head': seq<byte>)
    ensures head' == head + AddressWord(a)
  {
    head' := head + Zeros(12);
    head' := head' + a;
  }

  /** `tmp := *p; q = &tmp` when p is not nil. */
  method CopyAddressCell(c: AddressCell?) returns (d: AddressCell?)
    ensures d == null <==> c == null
    ensures d != null ==> fresh(d)
    ensures Deref(d) == Deref(c)
  {
    d := null;
    if c != null {
      d := new AddressCell(c.addr);
    }
  }

  class MantleUnsignedTx {
    var ChainId: BigInt
    var From: Address
    var Nonce: u64
    var GasFeeCap: BigInt
    var Gas: u64
    var To: AddressCell?
    var Value: BigInt
    var Data: array<byte>

    constructor (chainId: BigInt, from: Address, nonce: u64, gasFeeCap: BigInt, gas: u64,
                 to: AddressCell?, value: BigInt, data: array<byte>)
      ensures ChainId == chainId && From == from && Nonce == nonce && GasFeeCap == gasFeeCap
      ensures Gas == gas && To == to && Value == value && Data == data
    {
      ChainId, From, Nonce, GasFeeCap, Gas := chainId, from, nonce, gasFeeCap, gas;
      To, Value, Data := to, value, data;
    }

    function Body(): UnsignedBody
      reads this, To, Data
    {
      UnsignedBody(ChainId, From, Nonce, GasFeeCap, Gas, Deref(To), Value, Data[..])
    }

    /** A deep copy: each big integer starts as a fresh 0 and takes the
        original's value when that is not nil; the destination and the data
        are fresh, so nothing written through the copy reaches this object. */
    method Copy() returns (cpy: MantleUnsignedTx)
      ensures fresh(cpy) && fresh(cpy.Data) && (cpy.To != null ==> fresh(cpy.To))
      ensures cpy.Body() == Body().(chainId := OrZero(ChainId), gasFeeCap := OrZero(GasFeeCap),
                                    value := OrZero(Value))
    {
      var to: AddressCell? := null;
      var data := CopyBytes(Data);
      var chainId := OrZero(ChainId);
      var gasFeeCap := OrZero(GasFeeCap);
      if To != null {
        to := new AddressCell(To.addr);
      }
      var value := OrZero(Value);
      cpy := new MantleUnsignedTx(chainId, From, Nonce, gasFeeCap, Gas, to, value, data);
    }

    /** Unsigned variants ignore a new signature. */
    method SetSignatureValues(chainId: BigInt, v: BigInt, r: BigInt, s: BigInt)
      ensures Body() == old(Body())
    {
    }
  }

  class MantleContractTx {
    var ChainId: BigInt
    var RequestId: Hash
    var From: Address
    var GasFeeCap: BigInt
    var Gas: u64
    var To: AddressCell?
    var Value: BigInt
    var Data: array<byte>

    constructor (chainId: BigInt, requestId: Hash, from: Address, gasFeeCap: BigInt, gas: u64,
                 to: AddressCell?, value: BigInt, data: array<byte>)
      ensures ChainId == chainId && RequestId == requestId && From == from && GasFeeCap == gasFeeCap
      ensures Gas == gas && To == to && Value == value && Data == data
    {
      ChainId, RequestId, From, GasFeeCap, Gas := chainId, requestId, from, gasFeeCap, gas;
      To, Value, Data := to, value, data;
    }

    function Body(): ContractBody
      reads this, To, Data
    {
      ContractBody(ChainId, RequestId, From, GasFeeCap, Gas, Deref(To), Value, Data[..])
    }

    method Copy() returns (cpy: MantleContractTx)
      ensures fresh(cpy) && fresh(cpy.Data) && (cpy.To != null ==> fresh(cpy.To))
      ensures cpy.Body() == Body().(chainId := OrZero(ChainId), gasFeeCap := OrZero(GasFeeCap),
                                    value := OrZero(Value))
    {
      var to: AddressCell? := null;
      var data := CopyBytes(Data);
      var chainId := OrZero(ChainId);
      var gasFeeCap := OrZero(GasFeeCap);
      if To != null {
        to := new AddressCell(To.addr);
      }
      var value := OrZero(Value);
      cpy := new MantleContractTx(chainId, RequestId, From, gasFeeCap, Gas, to, value, data);
    }

    method SetSignatureValues(chainId: BigInt, v: BigInt, r: BigInt, s: BigInt)
      ensures Body() == old(Body())
    {
    }
  }

  class MantleRetryTx {
    var ChainId: BigInt
    var Nonce: u64
    var From: Address
    var GasFeeCap: BigInt
    var Gas: u64
    var To: AddressCell?
    var Value: BigInt
    var Data: array<byte>
    var TicketId: Hash
    var RefundTo: Address
    var MaxRefund: BigInt
    var SubmissionFeeRefund: BigInt

    constructor (chainId: BigInt, nonce: u64, from: Address, gasFeeCap: BigInt, gas: u64,
                 to: AddressCell?, value: BigInt, data: array<byte>, ticketId: Hash,
                 refundTo: Address, maxRefund: BigInt, submissionFeeRefund: BigInt)
      ensures ChainId == chainId && Nonce == nonce && From == from && GasFeeCap == gasFeeCap
      ensures Gas == gas && To == to && Value == value && Data == data && TicketId == ticketId
      ensures RefundTo == refundTo && MaxRefund == maxRefund
      ensures SubmissionFeeRefund == submissionFeeRefund
    {
      ChainId, Nonce, From, GasFeeCap, Gas := chainId, nonce, from, gasFeeCap, gas;
      To, Value, Data, TicketId := to, value, data, ticketId;
      RefundTo, MaxRefund, SubmissionFeeRefund := refundTo, maxRefund, submissionFeeRefund;
    }

    function Body(): RetryBody
      reads this, To, Data
    {
      RetryBody(ChainId, Nonce, From, GasFeeCap, Gas, Deref(To), Value, Data[..], TicketId,
        RefundTo, MaxRefund, SubmissionFeeRefund)
    }

    method Copy() returns (cpy: MantleRetryTx)
      ensures fresh(cpy) && fresh(cpy.Data) && (cpy.To != null ==> fresh(cpy.To))
      ensures cpy.Body() == Body().(chainId := OrZero(ChainId), gasFeeCap := OrZero(GasFeeCap),
                                    value := OrZero(Value), maxRefund := OrZero(MaxRefund),
                                    submissionFeeRefund := OrZero(SubmissionFeeRefund))
    {
      var to: AddressCell? := null;
      var data := CopyBytes(Data);
      var chainId := OrZero(ChainId);
      var gasFeeCap := OrZero(GasFeeCap);
      if To != null {
        to := new AddressCell(To.addr);
      }
      var value := OrZero(Value);
      var maxRefund := OrZero(MaxRefund);
      var submissionFeeRefund := OrZero(SubmissionFeeRefund);
      cpy := new MantleRetryTx(chainId, Nonce, From, gasFeeCap, Gas, to, value, data, TicketId,
        RefundTo, maxRefund, submissionFeeRefund);
    }

    method SetSignatureValues(chainId: BigInt, v: BigInt, r: BigInt, s: BigInt)
      ensures Body() == old(Body())
    {
    }
  }

  class MantleSubmitRetryableTx {
    var ChainId: BigInt
    var RequestId: Hash
    var From: Address
    var L1BaseFee: BigInt
    var DepositValue: BigInt
    var GasFeeCap: BigInt
    var Gas: u64
    var RetryTo: AddressCell?
    var RetryValue: BigInt
    var Beneficiary: Address
    var MaxSubmissionFee: BigInt
    var FeeRefundAddr: Address
    var RetryData: array<byte>

    constructor (chainId: BigInt, requestId: Hash, from: Address, l1BaseFee: BigInt,
                 depositValue: BigInt, gasFeeCap: BigInt, gas: u64, retryTo: AddressCell?,
                 retryValue: BigInt, beneficiary: Address, maxSubmissionFee: BigInt,
                 feeRefundAddr: Address, retryData: array<byte>)
      ensures ChainId == chainId && RequestId == requestId && From == from
      ensures L1BaseFee == l1BaseFee && DepositValue == depositValue && GasFeeCap == gasFeeCap
      ensures Gas == gas && RetryTo == retryTo && RetryValue == retryValue
      ensures Beneficiary == beneficiary && MaxSubmissionFee == maxSubmissionFee
      ensures FeeRefundAddr == feeRefundAddr && RetryData == retryData
    {
      ChainId, RequestId, From, L1BaseFee := chainId, requestId, from, l1BaseFee;
      DepositValue, GasFeeCap, Gas, RetryTo := depositValue, gasFeeCap, gas, retryTo;
      RetryValue, Beneficiary, MaxSubmissionFee := retryValue, beneficiary, maxSubmissionFee;
      FeeRefundAddr, RetryData := feeRefundAddr, retryData;
    }

    function Body(): SubmitRetryableBody
      reads this, RetryTo, RetryData
    {
      SubmitRetryableBody(ChainId, RequestId, From, L1BaseFee, DepositValue, GasFeeCap, Gas,
        Deref(RetryTo), RetryValue, Beneficiary, MaxSubmissionFee, FeeRefundAddr, RetryData[..])
    }

    /** The copy starts out sharing the retry destination pointer, and
        replaces it by a fresh cell when it is not nil. */
    method Copy() returns (cpy: MantleSubmitRetryableTx)
      ensures fresh(cpy) && fresh(cpy.RetryData) && (cpy.RetryTo != null ==> fresh(cpy.RetryTo))
      ensures cpy.Body() == Body().(chainId := OrZero(ChainId), depositValue := OrZero(DepositValue),
                                    l1BaseFee := OrZero(L1BaseFee), gasFeeCap := OrZero(GasFeeCap),
                                    retryValue := OrZero(RetryValue),
                                    maxSubmissionFee := OrZero(MaxSubmissionFee))
    {
      var retryTo := RetryTo;
      var data := CopyBytes(RetryData);
      var chainId := OrZero(ChainId);
      var depositValue := OrZero(DepositValue);
      var l1BaseFee := OrZero(L1BaseFee);
      var gasFeeCap := OrZero(GasFeeCap);
      if RetryTo != null {
        retryTo := new AddressCell(RetryTo.addr);
      }
      var retryValue := OrZero(RetryValue);
      var maxSubmissionFee := OrZero(MaxSubmissionFee);
      cpy := new MantleSubmitRetryableTx(chainId, RequestId, From, l1BaseFee, depositValue, gasFeeCap,
        Gas, retryTo, retryValue, Beneficiary, maxSubmissionFee, FeeRefundAddr, data);
    }

    /** The ten static argument words, appended one after the other. */
    method ArgumentHead() returns (head: seq<byte>)
      requires CalldataEncodable(Body())
      ensures head == StaticHead(Body(), 10)
    {
      ghost var b := Body();
      var retryTo := ZeroAddress;
      if RetryTo != null {
        retryTo := RetryTo.addr;
      }
      head := RequestId;
      assert head == StaticHead(b, 1);
      head := head + UintWord(L1BaseFee.value);
      assert head == StaticHead(b, 2);
      head := head + UintWord(DepositValue.value);
      assert head == StaticHead(b, 3);
      head := head + UintWord(RetryValue.value);
      assert head == StaticHead(b, 4);
      head := head + UintWord(GasFeeCap.value);
      assert head == StaticHead(b, 5);
      head := head + UintWord(Gas);
      assert head == StaticHead(b, 6);
      head := head + UintWord(MaxSubmissionFee.value);
      assert head == StaticHead(b, 7);
      head := AppendAddressWord(head, FeeRefundAddr);
      assert head == StaticHead(b, 8);
      head := AppendAddressWord(head, Beneficiary);
      assert head == StaticHead(b, 9);
      head := AppendAddressWord(head, retryTo);
    }

    /** `data()`: the calldata of the ticket-management call, grown by
        successive appends and then prefixed with the selector. */
    method Data() returns (data: seq<byte>)
      requires CalldataEncodable(Body())
      ensures data == SubmitRetryableCalldata(Body())
    {
      ghost var b := Body();
      data := ArgumentHead();
      var offset := |data| + 32;
      data := data + UintWord(offset);
      data := data + UintWord(RetryData.Length);
      data := data + RetryData[..];
      ghost var unpadded := data;
      var extra := RetryData.Length % 32;
      if extra > 0 {
        data := data + Zeros(32 - extra);
      } else {
        assert data == unpadded + Zeros(Padding(|b.retryData|));
      }
      assert data == SubmitRetryableArguments(b);
      data := SubmitRetryableSelector + data;
    }

    method SetSignatureValues(chainId: BigInt, v: BigInt, r: BigInt, s: BigInt)
      ensures Body() == old(Body())
    {
    }
  }

  class MantleDepositTx {
    var ChainId: BigInt
    var L1RequestId: Hash
    var From: Address
    var To: Address
    var Value: BigInt

    constructor (chainId: BigInt, l1RequestId: Hash, from: Address, to: Address, value: BigInt)
      ensures ChainId == chainId && L1RequestId == l1RequestId && From == from
      ensures To == to && Value == value
    {
      ChainId, L1RequestId, From, To, Value := chainId, l1RequestId, from, to, value;
    }

    function Body(): DepositBody
      reads this
    {
      DepositBody(ChainId, L1RequestId, From, To, Value)
    }

    method Copy() returns (cpy: MantleDepositTx)
      ensures fresh(cpy)
      ensures cpy.Body() == Body().(chainId := OrZero(ChainId), value := OrZero(Value))
    {
      var chainId := OrZero(ChainId);
      var value := OrZero(Value);
      cpy := new MantleDepositTx(chainId, L1RequestId, From, To, value);
    }

    method SetSignatureValues(chainId: BigInt, v: BigInt, r: BigInt, s: BigInt)
      ensures Body() == old(Body())
    {
    }
  }

  class MantleInternalTx {
    var ChainId: BigInt
    var Data: array<byte>

    constructor (chainId: BigInt, data: array<byte>)
      ensures ChainId == chainId && Data == data
    {
      ChainId, Data := chainId, data;
    }

    function Body(): InternalBody
      reads this, Data
    {
      InternalBody(ChainId, Data[..])
    }

    /** Unlike the other variants, this copy does not normalise: a nil chain
        id makes it panic. */
    method Copy() returns (cpy: MantleInternalTx)
      requires ChainId.Some?
      ensures fresh(cpy) && fresh(cpy.Data)
      ensures cpy.Body() == Body()
    {
      var data := CopyBytes(Data);
      cpy := new MantleInternalTx(Some(ChainId.value), data);
    }

    method SetSignatureValues(chainId: BigInt, v: BigInt, r: BigInt, s: BigInt)
      ensures Body() == old(Body())
    {
    }
  }

  /** Writing through a copy leaves the original untouched (enforced by the
      frame: this method may change only objects it allocated). */
  method MutateUnsignedCopy(tx: MantleUnsignedTx) returns (cpy: MantleUnsignedTx)
    ensures tx.Body() == old(tx.Body())
    ensures cpy.Body().value == Some(1) && cpy.Body().chainId == Some(7)
  {
    cpy := tx.Copy();
    cpy.Value := Some(1);
    cpy.ChainId := Some(7);
    if cpy.Data.Length > 0 {
      cpy.Data[0] := 255;
    }
    if cpy.To != null {
      cpy.To.addr := ZeroAddress;
    }
  }

  method MutateSubmitRetryableCopy(tx: MantleSubmitRetryableTx) returns (cpy: MantleSubmitRetryableTx)
    ensures tx.Body() == old(tx.Body())
    ensures cpy.Body().l1BaseFee == Some(1)
  {
    cpy := tx.Copy();
    cpy.L1BaseFee := Some(1);
    if cpy.RetryData.Length > 0 {
      cpy.RetryData[0] := 255;
    }
    if cpy.RetryTo != null {
      cpy.RetryTo.addr := ZeroAddress;
    }
  }
}
