/**
 * The in-memory stores. Each repository keeps a list that only grows: payments
 * are appended in the order they are saved and queried by merchant, or by
 * merchant and payment id; merchants are appended and listed.
 */
module Repositories {
  import opened Wrappers
  import opened Common
  import ServiceModels
  import opened RepositoryModels

  /**
   * The mapping registered at start-up from the service's payment record to the
   * stored one: every property copied by name.
   */
  function ToRepositoryModel(p: ServiceModels.PaymentResponse): (r: PaymentResponse)
    ensures r.id == p.id && r.merchantId == p.merchantId && r.status == p.status
    ensures r.lastFourDigits == p.lastFourDigits
    ensures r.expiryMonth == p.expiryMonth && r.expiryYear == p.expiryYear
    ensures r.currency == p.currency && r.amount == p.amount
  {
    PaymentResponse(p.id, p.merchantId, p.status, p.lastFourDigits, p.expiryMonth, p.expiryYear, p.currency, p.amount)
  }

  /** The mapping loses nothing: distinct service records are stored as distinct records. */
  lemma ToRepositoryModelInjective(p: ServiceModels.PaymentResponse, q: ServiceModels.PaymentResponse)
    ensures ToRepositoryModel(p) == ToRepositoryModel(q) ==> p == q
  {
  }

  /** `Where(p => p.MerchantId == merchantId)`: the merchant's payments, in stored order. */
  function PaymentsOfMerchant(payments: seq<PaymentResponse>, merchantId: Guid): (r: seq<PaymentResponse>)
    ensures |r| <= |payments|
    ensures forall i :: 0 <= i < |r| ==> r[i].merchantId == merchantId
  {
    if |payments| == 0 then []
    else
      var rest := PaymentsOfMerchant(payments[..|payments| - 1], merchantId);
      var last := payments[|payments| - 1];
      if last.merchantId == merchantId then rest + [last] else rest
  }

  /** A payment is listed for a merchant exactly when it is stored and belongs to that merchant. */
  lemma {:induction false} PaymentsOfMerchantMembers(payments: seq<PaymentResponse>, merchantId: Guid)
    ensures forall p :: p in PaymentsOfMerchant(payments, merchantId) <==> p in payments && p.merchantId == merchantId
    decreases |payments|
  {
    if |payments| > 0 {
      var init := payments[..|payments| - 1];
      PaymentsOfMerchantMembers(init, merchantId);
      assert payments == init + [payments[|payments| - 1]];
    }
  }

  /** Saving a payment adds it at the end of its merchant's list and leaves other merchants' lists alone. */
  lemma PaymentsOfMerchantAfterSave(payments: seq<PaymentResponse>, p: PaymentResponse, merchantId: Guid)
    ensures PaymentsOfMerchant(payments + [p], merchantId) ==
      PaymentsOfMerchant(payments, merchantId) + (if p.merchantId == merchantId then [p] else [])
  {
    assert (payments + [p])[..|payments|] == payments;
  }

  /** The store positions that hold the merchant's payments, in increasing order. */
  function MerchantPositions(payments: seq<PaymentResponse>, merchantId: Guid): (idx: seq<nat>)
    ensures forall k :: 0 <= k < |idx| ==> idx[k] < |payments|
    ensures forall k, l :: 0 <= k < l < |idx| ==> idx[k] < idx[l]
    ensures forall i :: 0 <= i < |payments| ==> (i in idx <==> payments[i].merchantId == merchantId)
  {
    if |payments| == 0 then []
    else
      var init := payments[..|payments| - 1];
      var rest := MerchantPositions(init, merchantId);
      assert forall i :: 0 <= i < |init| ==> init[i] == payments[i];
      if payments[|payments| - 1].merchantId == merchantId then rest + [|payments| - 1] else rest
  }

  /**
   * The merchant's list is the store read at exactly the positions holding that
   * merchant's payments, in store order: duplicates are kept, nothing is reordered.
   */
  lemma {:induction false} PaymentsOfMerchantPositions(payments: seq<PaymentResponse>, merchantId: Guid)
    ensures var idx, r := MerchantPositions(payments, merchantId), PaymentsOfMerchant(payments, merchantId);
      |r| == |idx| && forall k :: 0 <= k < |r| ==> r[k] == payments[idx[k]]
    decreases |payments|
  {
    if |payments| > 0 {
      var init, last := payments[..|payments| - 1], payments[|payments| - 1];
      PaymentsOfMerchantPositions(init, merchantId);
      var rest, restIdx := PaymentsOfMerchant(init, merchantId), MerchantPositions(init, merchantId);
      var r, idx := PaymentsOfMerchant(payments, merchantId), MerchantPositions(payments, merchantId);
      if last.merchantId == merchantId {
        assert r == rest + [last] && idx == restIdx + [|payments| - 1];
        forall k | 0 <= k < |r| ensures r[k] == payments[idx[k]] {
          if k < |rest| {
            assert r[k] == rest[k] == init[restIdx[k]];
          }
        }
      } else {
        assert r == rest && idx == restIdx;
        forall k | 0 <= k < |r| ensures r[k] == payments[idx[k]] {
          assert r[k] == init[restIdx[k]];
        }
      }
    }
  }

  /** Each payment occurs in its merchant's list as often as in the store, and other merchants' payments not at all. */
  lemma {:induction false} PaymentsOfMerchantCounts(payments: seq<PaymentResponse>, merchantId: Guid)
    ensures forall p :: (multiset(PaymentsOfMerchant(payments, merchantId))[p]
                         == if p.merchantId == merchantId then multiset(payments)[p] else 0)
    decreases |payments|
  {
    if |payments| > 0 {
      var init := payments[..|payments| - 1];
      PaymentsOfMerchantCounts(init, merchantId);
      assert payments == init + [payments[|payments| - 1]];
    }
  }

  /** `FirstOrDefault(p => p.Id == paymentId && p.MerchantId == merchantId)`. */
  function FirstWithIds(payments: seq<PaymentResponse>, merchantId: Guid, paymentId: Guid): (r: Option<PaymentResponse>)
    ensures r.None? <==> forall i :: 0 <= i < |payments| ==> !(payments[i].id == paymentId && payments[i].merchantId == merchantId)
    ensures r.Some? ==> r.value.id == paymentId && r.value.merchantId == merchantId
  {
    if |payments| == 0 then None
    else if payments[0].id == paymentId && payments[0].merchantId == merchantId then Some(payments[0])
    else
      var r := FirstWithIds(payments[1..], merchantId, paymentId);
      assert forall i :: 1 <= i < |payments| ==> payments[i] == payments[1..][i - 1];
      r
  }

  /** The payment found is the earliest stored one with both ids. */
  lemma {:induction false} FirstWithIdsIsEarliest(payments: seq<PaymentResponse>, merchantId: Guid, paymentId: Guid)
    requires FirstWithIds(payments, merchantId, paymentId).Some?
    ensures exists i :: (0 <= i < |payments| && payments[i] == FirstWithIds(payments, merchantId, paymentId).value &&
                         forall j :: 0 <= j < i ==> !(payments[j].id == paymentId && payments[j].merchantId == merchantId))
    decreases |payments|
  {
    if !(payments[0].id == paymentId && payments[0].merchantId == merchantId) {
      FirstWithIdsIsEarliest(payments[1..], merchantId, paymentId);
      var i :| 0 <= i < |payments[1..]| && payments[1..][i] == FirstWithIds(payments, merchantId, paymentId).value &&
        (forall j :: 0 <= j < i ==> !(payments[1..][j].id == paymentId && payments[1..][j].merchantId == merchantId));
      assert payments[i + 1] == payments[1..][i];
      assert forall j :: 1 <= j < i + 1 ==> payments[j] == payments[1..][j - 1];
    }
  }

  /**
   * Saving a payment never changes what an earlier lookup found, and a payment
   * saved under fresh ids is found by them afterwards.
   */
  lemma {:induction false} FirstWithIdsAfterSave(payments: seq<PaymentResponse>, p: PaymentResponse, merchantId: Guid, paymentId: Guid)
    ensures FirstWithIds(payments, merchantId, paymentId).Some? ==>
      FirstWithIds(payments + [p], merchantId, paymentId) == FirstWithIds(payments, merchantId, paymentId)
    ensures FirstWithIds(payments, p.merchantId, p.id).None? ==>
      FirstWithIds(payments + [p], p.merchantId, p.id) == Some(p)
    decreases |payments|
  {
    if |payments| > 0 {
      assert (payments + [p])[1..] == payments[1..] + [p];
      FirstWithIdsAfterSave(payments[1..], p, merchantId, paymentId);
    }
  }

  class PaymentRepository {
    var payments: seq<PaymentResponse>

    constructor ()
      ensures payments == []
    {
      payments := [];
    }

    /** Stores the mapped record at the end of the list. */
    method SavePayment(payment: ServiceModels.PaymentResponse)
      modifies this
      ensures payments == old(payments) + [ToRepositoryModel(payment)]
    {
      var stored := ToRepositoryModel(payment);
      payments := payments + [stored];
    }

    function GetAllPayments(): (r: seq<PaymentResponse>)
      reads this
      ensures r == payments
    {
      payments
    }

    /** `Where(p => p.MerchantId == merchantId)`: the merchant's payments, in store order, duplicates kept. */
    function GetPaymentsByMerchantId(merchantId: Guid): (r: seq<PaymentResponse>)
      reads this
      ensures r == PaymentsOfMerchant(payments, merchantId)
      ensures forall p :: p in r ==> p in payments && p.merchantId == merchantId
      ensures forall p :: p in payments && p.merchantId == merchantId ==> p in r
    {
      PaymentsOfMerchantMembers(payments, merchantId);
      PaymentsOfMerchant(payments, merchantId)
    }

    /** `FirstOrDefault`: the earliest stored payment with both ids, or nothing. */
    function GetPaymentByIds(merchantId: Guid, paymentId: Guid): (r: Option<PaymentResponse>)
      reads this
      ensures r == FirstWithIds(payments, merchantId, paymentId)
      ensures r.None? <==> forall p :: p in payments ==> !(p.id == paymentId && p.merchantId == merchantId)
      ensures r.Some? ==> exists i :: (0 <= i < |payments| && payments[i] == r.value &&
                                       forall j :: 0 <= j < i ==> !(payments[j].id == paymentId && payments[j].merchantId == merchantId))
      ensures r.Some? ==> r.value.id == paymentId && r.value.merchantId == merchantId
    {
      var r := FirstWithIds(payments, merchantId, paymentId);
      if r.Some? then FirstWithIdsIsEarliest(payments, merchantId, paymentId); r else r
    }
  }

  class MerchantRepository {
    var merchants: seq<Merchant>

    constructor ()
      ensures merchants == []
    {
      merchants := [];
    }

    method SaveMerchant(merchant: Merchant)
      modifies this
      ensures merchants == old(merchants) + [merchant]
    {
      merchants := merchants + [merchant];
    }

    function GetAllMerchants(): (r: seq<Merchant>)
      reads this
      ensures r == merchants
    {
      merchants
    }
  }
}
