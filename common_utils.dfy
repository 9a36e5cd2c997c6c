/**
 * Transaction confirmation: polling for a sent transaction until it is
 * found or the retries run out. The RPC answers are the `poll` parameter:
 * `poll(k)` is what the k-th request reports.
 */
module CommonUtils {

  /** What one get_transaction request reports. */
  datatype Poll =
    | NotFound             // the transaction is not visible yet
    | RequestFailed        // the request or the JSON decoding raised
    | Found(failed: bool)  // the transaction's meta, with or without an error

  /** The answer of the requests from the k-th on: the first found status decides. */
  function ConfirmFrom(poll: nat -> Poll, k: nat, maxRetries: int): (confirmed: bool)
    ensures confirmed ==> k < maxRetries
    decreases maxRetries - k
  {
    if maxRetries <= k then false
    else
      match poll(k)
      case Found(failed) => !failed
      case _ => ConfirmFrom(poll, k + 1, maxRetries)
  }

  /** The number of requests a confirmation makes from the k-th on. */
  function PollsFrom(poll: nat -> Poll, k: nat, maxRetries: int): nat
    decreases maxRetries - k
  {
    if maxRetries <= k then 0
    else if poll(k).Found? then 1
    else 1 + PollsFrom(poll, k + 1, maxRetries)
  }

  /**
   * confirm_txn: every request that does not find the transaction, or
   * raises, uses one retry; the first found status returns whether the
   * transaction carries no error; running out of retries returns False.
   */
  method ConfirmTxn(poll: nat -> Poll, maxRetries: int) returns (confirmed: bool, polls: nat)
    ensures confirmed == ConfirmFrom(poll, 0, maxRetries)
    ensures polls == PollsFrom(poll, 0, maxRetries)
    ensures polls <= if maxRetries <= 0 then 0 else maxRetries
  {
    if 0 <= maxRetries {
      PollsBounded(poll, 0, maxRetries);
    }
    var retries: nat := 0;
    while retries < maxRetries
      invariant retries <= maxRetries || retries == 0
      invariant forall j: nat :: j < retries ==> !poll(j).Found?
      invariant ConfirmFrom(poll, 0, maxRetries) == ConfirmFrom(poll, retries, maxRetries)
      invariant PollsFrom(poll, 0, maxRetries) == retries + PollsFrom(poll, retries, maxRetries)
      decreases maxRetries - retries
    {
      var status := poll(retries);
      if status.NotFound? || status.RequestFailed? {
        retries := retries + 1;
        continue;
      }
      return !status.failed, retries + 1;
    }
    return false, retries;
  }

  /** No request is made, and nothing is confirmed, when the retry budget is not positive. */
  lemma NoPollsWithoutRetries(poll: nat -> Poll, maxRetries: int)
    requires maxRetries <= 0
    ensures PollsFrom(poll, 0, maxRetries) == 0 && !ConfirmFrom(poll, 0, maxRetries)
  {
  }

  /** At most one request per retry. */
  lemma {:induction false} PollsBounded(poll: nat -> Poll, k: nat, maxRetries: int)
    requires k <= maxRetries
    ensures PollsFrom(poll, k, maxRetries) <= maxRetries - k
    decreases maxRetries - k
  {
    if k < maxRetries && !poll(k).Found? {
      PollsBounded(poll, k + 1, maxRetries);
    }
  }

  /**
   * The confirmation is True exactly when, within the first `maxRetries`
   * requests, some request finds the transaction without an error and no
   * earlier request found it at all.
   */
  lemma {:induction false} ConfirmedIff(poll: nat -> Poll, k: nat, maxRetries: int)
    ensures ConfirmFrom(poll, k, maxRetries) <==>
      exists i: nat :: k <= i < maxRetries && poll(i) == Found(false) && forall j: nat :: k <= j < i ==> !poll(j).Found?
    decreases maxRetries - k
  {
    if k < maxRetries {
      ConfirmedIff(poll, k + 1, maxRetries);
      if poll(k).Found? {
        if poll(k) == Found(false) {
          assert forall j: nat :: k <= j < k ==> !poll(j).Found?;
        }
      } else if ConfirmFrom(poll, k + 1, maxRetries) {
        var i: nat :| k + 1 <= i < maxRetries && poll(i) == Found(false) && forall j: nat :: k + 1 <= j < i ==> !poll(j).Found?;
        assert forall j: nat :: k <= j < i ==> !poll(j).Found?;
      }
    }
  }

  /** The requests stop at the first found status: later answers never matter. */
  lemma {:induction false} FoundStopsPolling(poll1: nat -> Poll, poll2: nat -> Poll, k: nat, i: nat, maxRetries: int)
    requires k <= i < maxRetries && poll1(i).Found?
    requires forall j: nat :: k <= j <= i ==> poll1(j) == poll2(j)
    ensures ConfirmFrom(poll1, k, maxRetries) == ConfirmFrom(poll2, k, maxRetries)
    ensures PollsFrom(poll1, k, maxRetries) == PollsFrom(poll2, k, maxRetries)
    decreases i - k
  {
    if k < i && !poll1(k).Found? {
      FoundStopsPolling(poll1, poll2, k + 1, i, maxRetries);
    }
  }
}
