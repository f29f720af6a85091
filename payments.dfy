/** Payment records of the online payment gateway, the message whose HMAC
    the gateway signs, and the update a verified payment makes. */
module Payments {
  import opened Common

  datatype PaymentStatus = Created | Paid

  /** A stored payment record. The amount is in paise. */
  datatype Payment = Payment(
    id: Uuid, userId: Uuid, gatewayOrderId: string, amount: int, currency: string,
    status: PaymentStatus, gatewayPaymentId: Option<string>, signature: Option<string>)

  /** What create-order returns to the client to open the gateway's checkout. */
  datatype PaymentIntent = PaymentIntent(gatewayOrderId: string, amount: int, currency: string, keyId: string)

  /** The proof of payment the client forwards for verification, with the
      store's own order id. */
  datatype PaymentVerification = PaymentVerification(
    gatewayOrderId: string, gatewayPaymentId: string, signature: string, orderId: Uuid)

  const Currency := "INR"

  /** The message whose HMAC-SHA256 the gateway's signature must equal:
      the gateway order id and payment id joined by a bar. */
  function SignedMessage(gatewayOrderId: string, gatewayPaymentId: string): string {
    gatewayOrderId + "|" + gatewayPaymentId
  }

  /** When gateway order ids contain no bar, the signed message determines
      both ids, so a signature vouches for exactly one (order, payment) pair. */
  lemma SignedMessageUnambiguous(orderId: string, paymentId: string, orderId': string, paymentId': string)
    requires '|' !in orderId && '|' !in orderId'
    requires SignedMessage(orderId, paymentId) == SignedMessage(orderId', paymentId')
    ensures orderId == orderId' && paymentId == paymentId'
  {
    var m := SignedMessage(orderId, paymentId);
    MessageLayout(orderId, paymentId);
    MessageLayout(orderId', paymentId');
    if |orderId| < |orderId'| {
      assert false;
    } else if |orderId'| < |orderId| {
      assert false;
    } else {
      assert orderId == m[..|orderId|] == orderId';
      assert paymentId == m[|orderId| + 1..] == paymentId';
    }
  }

  lemma MessageLayout(gatewayOrderId: string, gatewayPaymentId: string)
    ensures var m := SignedMessage(gatewayOrderId, gatewayPaymentId);
      && |m| == |gatewayOrderId| + 1 + |gatewayPaymentId|
      && m[|gatewayOrderId|] == '|'
      && forall k :: 0 <= k < |gatewayOrderId| ==> m[k] == gatewayOrderId[k]
  {
  }

  /** Without that restriction the message is ambiguous: two different id
      pairs share a message, and so share a signature. */
  lemma SignedMessageAmbiguous()
    ensures SignedMessage("order|1", "pay") == SignedMessage("order", "1|pay")
  {
  }

  /** The record a lookup by gateway order id finds: the first one, or
      `|payments|` when there is none. */
  function FindPayment(payments: seq<Payment>, gatewayOrderId: string): (i: nat)
    ensures i <= |payments|
    ensures i < |payments| ==> payments[i].gatewayOrderId == gatewayOrderId
    ensures forall k :: 0 <= k < i ==> payments[k].gatewayOrderId != gatewayOrderId
  {
    FirstIndex(payments, (p: Payment) => p.gatewayOrderId == gatewayOrderId)
  }

  /** A payment record after its payment was verified. */
  function Settle(p: Payment, gatewayPaymentId: string, signature: string): Payment {
    p.(status := Paid, gatewayPaymentId := Some(gatewayPaymentId), signature := Some(signature))
  }

  /** The payment records after verify_payment's update: the first record of
      that gateway order becomes paid with the payment id and signature; no
      other record changes, and no record's owner, order, amount or currency changes.
      The record's owner is not compared with the caller. */
  function MarkPaid(payments: seq<Payment>, gatewayOrderId: string, gatewayPaymentId: string, signature: string): (r: seq<Payment>)
    ensures |r| == |payments|
    ensures forall k :: 0 <= k < |payments| && payments[k].gatewayOrderId != gatewayOrderId ==> r[k] == payments[k]
    ensures forall k :: 0 <= k < |payments| ==>
              && r[k].id == payments[k].id && r[k].userId == payments[k].userId
              && r[k].gatewayOrderId == payments[k].gatewayOrderId && r[k].amount == payments[k].amount
              && r[k].currency == payments[k].currency
    ensures forall k :: 0 <= k < |payments| && r[k] != payments[k] ==>
              k == FindPayment(payments, gatewayOrderId)
    ensures (exists k :: 0 <= k < |payments| && payments[k].gatewayOrderId == gatewayOrderId) ==>
              var i := FindPayment(payments, gatewayOrderId);
              r[i].status == Paid && r[i].gatewayPaymentId == Some(gatewayPaymentId) && r[i].signature == Some(signature)
              && r[i].currency == payments[i].currency
  {
    var i := FindPayment(payments, gatewayOrderId);
    if i < |payments| then payments[i := Settle(payments[i], gatewayPaymentId, signature)] else payments
  }
}
