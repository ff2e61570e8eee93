/**
 * The recovery decisions of the coordinator, and the account bytes it reads them from.
 *
 * A decision only compares digests, so it is written for any type of digest; account data holds 32 bytes.
 */
module Recovery {
  import opened ByteOrder
  import opened Outcomes

  datatype OnChainApproval<D> = OnChainApproval(bitmap: bv8, consumed: bool, expiry: int, digest: D)

  datatype Refusal = AuthorizationExpired | AlreadyConsumed | MintAuthorizationExpired | DigestMismatchWhileValid

  function OneIf(condition: bool): nat {
    if condition then 1 else 0
  }

  /** `u8::count_ones`. */
  function CountOnes(b: bv8): nat {
    OneIf(b & 1 != 0) + OneIf(b & 2 != 0) + OneIf(b & 4 != 0) + OneIf(b & 8 != 0)
    + OneIf(b & 16 != 0) + OneIf(b & 32 != 0) + OneIf(b & 64 != 0) + OneIf(b & 128 != 0)
  }

  predicate ExpiredOnChain(expiry: int, chainNow: int) {
    chainNow >= expiry
  }

  /** Which of the two attesters A and B still has to vote, or why no vote may be submitted. */
  function AttestersNeeded<D(==)>(existing: Option<OnChainApproval<D>>, digest: D, expiry: int, chainNow: int,
                                  replaceExpired: bool)
    : Result<(bool, bool), Refusal>
  {
    match existing
    case None =>
      if ExpiredOnChain(expiry, chainNow) then Err(AuthorizationExpired) else Ok((true, true))
    case Some(e) =>
      if e.consumed then
        Err(AlreadyConsumed)
      else if ExpiredOnChain(e.expiry, chainNow) then
        if replaceExpired then
          Ok((true, true))
        else if e.digest == digest && e.expiry == expiry && CountOnes(e.bitmap) >= 2 then
          Ok((false, false))
        else
          Err(MintAuthorizationExpired)
      else if e.digest != digest || e.expiry != expiry then
        Err(DigestMismatchWhileValid)
      else
        Ok((e.bitmap & 1 == 0, e.bitmap & 2 == 0))
  }

  predicate ShouldRefreshReleaseMaterials<D>(chainNow: int, onChain: Option<OnChainApproval<D>>, journalExpiry: int,
                                             receiptReleased: bool)
  {
    if receiptReleased then
      false
    else
      match onChain
      case Some(approval) => !approval.consumed && ExpiredOnChain(approval.expiry, chainNow)
      case None => journalExpiry > 0 && ExpiredOnChain(journalExpiry, chainNow)
  }

  predicate ShouldSubmitRelease(journalReleased: bool, receiptReleased: bool) {
    !journalReleased && !receiptReleased
  }

  // Account bytes ----------------------------------------------------------------------------------------

  const DISCRIMINATOR: nat := 8
  const BITMAP_OFFSET: nat := DISCRIMINATOR + 32 + 1 + 32
  const CONSUMED_OFFSET: nat := BITMAP_OFFSET + 1
  const EXPIRY_OFFSET: nat := CONSUMED_OFFSET + 1 + 1
  const RECEIPT_STATUS_OFFSET: nat := DISCRIMINATOR + 32 + 32 + 32 + 32 + 32 + 8 + 32

  const I64_HALF: int := 0x8000_0000_0000_0000
  const I64_SPAN: int := 0x1_0000_0000_0000_0000

  predicate IsI64(x: int) {
    -I64_HALF <= x < I64_HALF
  }

  /** `i64::to_le_bytes`: two's complement, low byte first. */
  function I64Bytes(x: int): Bytes
    requires IsI64(x)
  {
    LittleEndian(if x >= 0 then x else x + I64_SPAN, 8)
  }

  function I64FromBytes(bytes: Bytes): int {
    var n := FromLittleEndian(bytes);
    if n < I64_HALF then n else n - I64_SPAN
  }

  lemma I64RoundTrip(x: int)
    requires IsI64(x)
    ensures I64FromBytes(I64Bytes(x)) == x
  {
    assert Span(8) == I64_SPAN by {
      assert Span(2) == 0x1_0000;
      assert Span(4) == 0x1_0000_0000;
      assert Span(6) == 0x1_0000_0000_0000;
    }
    LittleEndianRoundTrip(if x >= 0 then x else x + I64_SPAN, 8);
  }

  /** The serialized fields of an approval account, in the order of its declaration. */
  datatype ApprovalAccount = ApprovalAccount(
    discriminator: Bytes, operation: Bytes, direction: Byte, digest: Bytes, bitmap: bv8, consumed: bool, bump: Byte,
    expiry: int)

  predicate WellSized(a: ApprovalAccount) {
    |a.discriminator| == 8 && |a.operation| == 32 && |a.digest| == 32 && IsI64(a.expiry)
  }

  function BoolByte(b: bool): Byte {
    if b then 1 else 0
  }

  function EncodeApproval(a: ApprovalAccount): Bytes
    requires WellSized(a)
  {
    a.discriminator + a.operation + [a.direction] + a.digest + [a.bitmap as Byte, BoolByte(a.consumed), a.bump] + I64Bytes(a.expiry)
  }

  datatype DecodeError = Truncated

  function DecodeApproval(data: Bytes): Result<OnChainApproval<Bytes>, DecodeError> {
    if |data| < EXPIRY_OFFSET + 8 then
      Err(Truncated)
    else
      Ok(OnChainApproval(data[BITMAP_OFFSET] as bv8, data[CONSUMED_OFFSET] != 0,
                         I64FromBytes(data[EXPIRY_OFFSET..EXPIRY_OFFSET + 8]),
                         data[DISCRIMINATOR + 32 + 1..BITMAP_OFFSET]))
  }

  /** Decoding what the program serialized gives back its fields, whatever padding follows them. */
  lemma ApprovalRoundTrip(a: ApprovalAccount, padding: Bytes)
    requires WellSized(a)
    ensures DecodeApproval(EncodeApproval(a) + padding) == Ok(OnChainApproval(a.bitmap, a.consumed, a.expiry, a.digest))
  {
    var data := EncodeApproval(a) + padding;
    assert data[BITMAP_OFFSET] == a.bitmap as Byte;
    assert data[CONSUMED_OFFSET] == BoolByte(a.consumed);
    assert data[EXPIRY_OFFSET..EXPIRY_OFFSET + 8] == I64Bytes(a.expiry);
    assert data[DISCRIMINATOR + 32 + 1..BITMAP_OFFSET] == a.digest;
    I64RoundTrip(a.expiry);
  }

  /** Every proper prefix of a serialized approval is reported as truncated. */
  lemma ShortApprovalIsRefused(a: ApprovalAccount, length: nat)
    requires WellSized(a) && length < |EncodeApproval(a)|
    ensures DecodeApproval(EncodeApproval(a)[..length]) == Err(Truncated)
  {
    assert |EncodeApproval(a)| == EXPIRY_OFFSET + 8;
  }

  /** The serialized fields of a lock receipt, in the order of its declaration. */
  datatype ReceiptAccount = ReceiptAccount(
    discriminator: Bytes, operation: Bytes, destination: Bytes, commitment: Bytes, reservation: Bytes, previous: Bytes,
    expiry: int, lockProof: Bytes, status: Byte, bump: Byte)

  predicate ReceiptWellSized(r: ReceiptAccount) {
    && |r.discriminator| == 8 && |r.operation| == 32 && |r.destination| == 32 && |r.commitment| == 32
    && |r.reservation| == 32 && |r.previous| == 32 && |r.lockProof| == 32 && IsI64(r.expiry)
  }

  function EncodeReceipt(r: ReceiptAccount): Bytes
    requires ReceiptWellSized(r)
  {
    r.discriminator + r.operation + r.destination + r.commitment + r.reservation + r.previous + I64Bytes(r.expiry)
    + r.lockProof + [r.status, r.bump]
  }

  function DecodeReceiptStatus(data: Bytes): Result<Byte, DecodeError> {
    if RECEIPT_STATUS_OFFSET < |data| then Ok(data[RECEIPT_STATUS_OFFSET]) else Err(Truncated)
  }

  lemma ReceiptStatusRoundTrip(r: ReceiptAccount, padding: Bytes)
    requires ReceiptWellSized(r)
    ensures DecodeReceiptStatus(EncodeReceipt(r) + padding) == Ok(r.status)
  {
    var prefix := r.discriminator + r.operation + r.destination + r.commitment + r.reservation + r.previous
                  + I64Bytes(r.expiry) + r.lockProof;
    assert |prefix| == RECEIPT_STATUS_OFFSET;
    assert EncodeReceipt(r) == prefix + [r.status, r.bump];
  }
}
