/** The random-number request lifecycle of the VRF client: the process-wide
    store of the request's state, the request operation that drives it through
    submission and confirmation, the listener that records the randomness
    delivered for a request id, and the display formatter. Every chain and
    wallet call is an input: the model takes what each awaited call returned
    or threw as a parameter. */
module Contracts {
  import opened Outcomes
  import opened JsText

  /** The record the store publishes (contracts.ts:10-20). Timestamps are
      milliseconds as passed in by the caller. */
  datatype RandomNumberState = RandomNumberState(
    isRequesting: bool,
    isWaitingForRandomness: bool,
    requestId: Option<string>,
    txHash: Option<string>,
    responseTxHash: Option<string>,
    randomNumber: Option<string>,
    error: Option<string>,
    requestTimestamp: Option<int>,
    responseTimestamp: Option<int>)

  /** The store's value when the page loads: nothing requested, nothing set. */
  const InitialState := RandomNumberState(false, false, None, None, None, None, None, None, None)

  const WalletNotConnected := "Wallet not connected"
  const RequestEventNotFound := "Request event not found in transaction logs"
  const RequestFallbackMessage := "Failed to request random number"

  /** A decoded `RandomnessRequested(bytes32 indexed requestId, address indexed requester)` log.
      The query that returns these filters by contract, event and block only,
      so a log may belong to another requester's transaction in that block. */
  datatype RequestedLog = RequestedLog(requestId: string, requester: string)

  /** A decoded `RandomnessReceived(bytes32 indexed requestId, uint256 randomness, uint8 status)`
      log; `randomness` is absent when the data could not be decoded, and the
      transaction hash is absent for a pending log. */
  datatype ReceivedLog = ReceivedLog(requestId: string, randomness: Option<nat>, transactionHash: Option<string>)

  /** The receipt of the submission. Its block number only sets the block
      range of the `RandomnessRequested` log query, whose result is passed in
      separately, so nothing in the model reads it. */
  datatype Receipt = Receipt(blockNumber: nat)

  /** What holds of every state the store can publish: the two busy flags
      exclude each other, waiting implies a recorded id and no error, and
      an in-flight submission has neither an id nor an error yet. */
  predicate Consistent(s: RandomNumberState)
  {
    && !(s.isRequesting && s.isWaitingForRandomness)
    && (s.isWaitingForRandomness ==> s.requestId.Some? && s.error.None?)
    && (s.isRequesting ==> s.requestId.None? && s.error.None?)
  }

  // ---------------------------------------------------------------------
  // The successive updates of one request, as functions of the old state.

  /** The reset published when a request begins. */
  function Started(s: RandomNumberState, now: int): RandomNumberState
  {
    s.(isRequesting := true, isWaitingForRandomness := false, error := None,
       requestId := None, txHash := None, responseTxHash := None,
       randomNumber := None, requestTimestamp := Some(now), responseTimestamp := None)
  }

  /** The update recording the submission's transaction hash. */
  function Submitted(s: RandomNumberState, hash: string): RandomNumberState
  {
    s.(txHash := Some(hash))
  }

  /** The update recording the request id from the first `RandomnessRequested` log. */
  function Requested(s: RandomNumberState, id: string): RandomNumberState
  {
    s.(requestId := Some(id), isRequesting := false, isWaitingForRandomness := true)
  }

  /** The update the `catch` clause publishes. */
  function Failed(s: RandomNumberState, t: Thrown): RandomNumberState
  {
    s.(isRequesting := false, isWaitingForRandomness := false,
       error := Some(ErrorMessage(t, RequestFallbackMessage)))
  }

  /** `log.args.randomness?.toString() || null`. */
  function RandomnessText(log: ReceivedLog): Option<string>
  {
    match log.randomness
    case None => None
    case Some(n) => var t := DecimalString(n); if t == "" then None else Some(t)
  }

  /** The update the listener publishes for a matching log. */
  function Delivered(s: RandomNumberState, log: ReceivedLog, now: int): RandomNumberState
  {
    s.(randomNumber := RandomnessText(log), responseTxHash := log.transactionHash,
       isWaitingForRandomness := false, responseTimestamp := Some(now))
  }

  /** Whether every awaited step of a request succeeds and the receipt's block
      holds at least one `RandomnessRequested` log. */
  predicate RequestSucceeds(wallet: Outcome<bool>, write: Outcome<string>, receipt: Outcome<Receipt>,
                            logs: Outcome<seq<RequestedLog>>)
  {
    wallet == Returned(true) && write.Returned? && receipt.Returned? && logs.Returned? && |logs.value| > 0
  }

  /** The state a whole `requestRandomNumber` call leaves behind. `wallet` is
      what `getWalletClient` settled with (`false` for a missing client),
      `write` the submission hash, `receipt` the receipt and `logs` the
      `RandomnessRequested` logs of the receipt's block. */
  function RequestOutcome(s: RandomNumberState, now: int, wallet: Outcome<bool>, write: Outcome<string>,
                          receipt: Outcome<Receipt>, logs: Outcome<seq<RequestedLog>>): RandomNumberState
  {
    var started := Started(s, now);
    if wallet.Threw? then Failed(started, wallet.thrown)
    else if !wallet.value then Failed(started, ErrorObject(WalletNotConnected))
    else if write.Threw? then Failed(started, write.thrown)
    else
      var submitted := Submitted(started, write.value);
      if receipt.Threw? then Failed(submitted, receipt.thrown)
      else if logs.Threw? then Failed(submitted, logs.thrown)
      else if |logs.value| == 0 then Failed(submitted, ErrorObject(RequestEventNotFound))
      else Requested(submitted, logs.value[0].requestId)
  }

  /** The position of the first log carrying request id `id`, if any. */
  function FirstMatch(logs: seq<ReceivedLog>, id: string): (k: Option<nat>)
    ensures k.Some? ==> k.value < |logs| && logs[k.value].requestId == id
    ensures k.Some? ==> forall j :: 0 <= j < k.value ==> logs[j].requestId != id
    ensures k.None? ==> forall j :: 0 <= j < |logs| ==> logs[j].requestId != id
  {
    if logs == [] then None
    else if logs[0].requestId == id then Some(0)
    else match FirstMatch(logs[1..], id)
      case None => None
      case Some(k) => Some(k + 1)
  }

  /** The state after a listener for `id` has processed one batch of logs. */
  function AfterBatch(s: RandomNumberState, id: string, logs: seq<ReceivedLog>, now: int): RandomNumberState
  {
    match FirstMatch(logs, id)
    case None => s
    case Some(k) => Delivered(s, logs[k], now)
  }

  /** The text shown for a random number: empty for a missing or empty value,
      the value itself up to 12 characters, else its first six characters,
      an ellipsis and its last six. */
  function FormatRandomNumber(randomNumber: Option<string>): (r: string)
    ensures randomNumber.None? || randomNumber == Some("") ==> r == ""
    ensures randomNumber.Some? && |randomNumber.value| <= 12 ==> r == randomNumber.value
    ensures randomNumber.Some? && |randomNumber.value| > 12 ==>
      var s := randomNumber.value;
      |r| == 15 && r[..6] == s[..6] && r[6..9] == "..." && r[9..] == s[|s| - 6..]
  {
    match randomNumber
    case None => ""
    case Some(s) =>
      if s == "" then ""
      else if |s| <= 12 then s
      else
        SubstringInBounds(s, 0, 6);
        SubstringInBounds(s, |s| - 6, |s|);
        Substring(s, 0, 6) + "..." + SubstringFrom(s, |s| - 6)
  }

  // ---------------------------------------------------------------------
  // Properties of the updates.

  /** Starting a request forgets everything about the previous one: the
      published state is the initial one, marked as requesting, with the
      new request time. */
  lemma StartedForgetsPrevious(s1: RandomNumberState, s2: RandomNumberState, now: int)
    ensures Started(s1, now) == Started(s2, now)
    ensures Started(s1, now) == InitialState.(isRequesting := true, requestTimestamp := Some(now))
    ensures Consistent(Started(s1, now))
  {
  }

  /** Recording the submission sets the hash and nothing else. */
  lemma SubmittedChangesOnlyTxHash(s: RandomNumberState, hash: string)
    ensures Submitted(s, hash).txHash == Some(hash)
    ensures Submitted(s, hash).(txHash := s.txHash) == s
  {
  }

  /** Recording the request id switches from requesting to waiting and leaves
      every other field, the submission hash included, as it was. */
  lemma RequestedStartsWaiting(s: RandomNumberState, id: string)
    ensures Requested(s, id).requestId == Some(id)
    ensures !Requested(s, id).isRequesting && Requested(s, id).isWaitingForRandomness
    ensures Requested(s, id).(requestId := s.requestId, isRequesting := s.isRequesting,
                              isWaitingForRandomness := s.isWaitingForRandomness) == s
  {
  }

  /** A failure clears both busy flags and sets the message, keeping the hash
      and id already recorded. */
  lemma FailedKeepsProgress(s: RandomNumberState, t: Thrown)
    ensures !Failed(s, t).isRequesting && !Failed(s, t).isWaitingForRandomness
    ensures t.ErrorObject? ==> Failed(s, t).error == Some(t.message)
    ensures t.NonError? ==> Failed(s, t).error == Some("Failed to request random number")
    ensures Failed(s, t).txHash == s.txHash && Failed(s, t).requestId == s.requestId
    ensures Failed(s, t).(isRequesting := s.isRequesting, isWaitingForRandomness := s.isWaitingForRandomness,
                          error := s.error) == s
  {
  }

  /** A delivered log ends the wait: the shown number is the decimal text of
      the log's randomness (present exactly when the randomness is, and
      reading back as that value), and delivering the same log again changes
      nothing. */
  lemma DeliveredCompletes(s: RandomNumberState, log: ReceivedLog, now: int)
    ensures !Delivered(s, log, now).isWaitingForRandomness
    ensures Delivered(s, log, now).randomNumber.Some? <==> log.randomness.Some?
    ensures log.randomness.Some? ==>
      var t := Delivered(s, log, now).randomNumber.value;
      IsDigits(t) && DecimalValue(t) == log.randomness.value
    ensures Delivered(s, log, now).responseTxHash == log.transactionHash
    ensures Delivered(s, log, now).responseTimestamp == Some(now)
    ensures Delivered(s, log, now).(randomNumber := s.randomNumber, responseTxHash := s.responseTxHash,
                                    isWaitingForRandomness := s.isWaitingForRandomness,
                                    responseTimestamp := s.responseTimestamp) == s
    ensures Delivered(Delivered(s, log, now), log, now) == Delivered(s, log, now)
    ensures Consistent(s) ==> Consistent(Delivered(s, log, now))
  {
    if log.randomness.Some? {
      DecimalRoundTrip(log.randomness.value);
    }
  }

  /** A finished request never leaves `isRequesting` set, waits exactly when
      every step succeeded, reports an error exactly when it does not wait,
      and carries no response fields. */
  lemma RequestSettles(s: RandomNumberState, now: int, wallet: Outcome<bool>, write: Outcome<string>,
                       receipt: Outcome<Receipt>, logs: Outcome<seq<RequestedLog>>)
    ensures var r := RequestOutcome(s, now, wallet, write, receipt, logs);
      && !r.isRequesting
      && (r.isWaitingForRandomness <==> RequestSucceeds(wallet, write, receipt, logs))
      && (r.error.None? <==> RequestSucceeds(wallet, write, receipt, logs))
      && r.requestTimestamp == Some(now)
      && r.randomNumber.None? && r.responseTxHash.None? && r.responseTimestamp.None?
      && Consistent(r)
  {
  }

  /** A successful request records the id of the first log in its block and
      the submission hash. */
  lemma RequestSuccess(s: RandomNumberState, now: int, wallet: Outcome<bool>, write: Outcome<string>,
                       receipt: Outcome<Receipt>, logs: Outcome<seq<RequestedLog>>)
    requires RequestSucceeds(wallet, write, receipt, logs)
    ensures var r := RequestOutcome(s, now, wallet, write, receipt, logs);
      r.requestId == Some(logs.value[0].requestId) && r.txHash == Some(write.value)
  {
  }

  /** A failed request has no id; it keeps the submission hash exactly when
      the submission went through, and its message names the step that failed. */
  lemma RequestFailure(s: RandomNumberState, now: int, wallet: Outcome<bool>, write: Outcome<string>,
                       receipt: Outcome<Receipt>, logs: Outcome<seq<RequestedLog>>)
    requires !RequestSucceeds(wallet, write, receipt, logs)
    ensures var r := RequestOutcome(s, now, wallet, write, receipt, logs);
      && r.requestId.None?
      && r.txHash == (if wallet == Returned(true) && write.Returned? then Some(write.value) else None)
      && (wallet.Threw? ==> r.error == Some(ErrorMessage(wallet.thrown, RequestFallbackMessage)))
      && (wallet == Returned(false) ==> r.error == Some(WalletNotConnected))
      && (wallet == Returned(true) && write.Threw? ==> r.error == Some(ErrorMessage(write.thrown, RequestFallbackMessage)))
      && (wallet == Returned(true) && write.Returned? && receipt.Threw? ==>
            r.error == Some(ErrorMessage(receipt.thrown, RequestFallbackMessage)))
      && (wallet == Returned(true) && write.Returned? && receipt.Returned? && logs.Threw? ==>
            r.error == Some(ErrorMessage(logs.thrown, RequestFallbackMessage)))
      && (wallet == Returned(true) && write.Returned? && receipt.Returned? && logs == Returned([]) ==>
            r.error == Some(RequestEventNotFound))
  {
  }

  /** The outcome of a request does not depend on the state it started from. */
  lemma RequestIsolatesPrevious(s1: RandomNumberState, s2: RandomNumberState, now: int, wallet: Outcome<bool>,
                                write: Outcome<string>, receipt: Outcome<Receipt>, logs: Outcome<seq<RequestedLog>>)
    ensures RequestOutcome(s1, now, wallet, write, receipt, logs) == RequestOutcome(s2, now, wallet, write, receipt, logs)
  {
    StartedForgetsPrevious(s1, s2, now);
  }

  /** A batch in which no log carries the listener's id leaves the state as it was. */
  lemma BatchIgnoresOtherRequests(s: RandomNumberState, id: string, logs: seq<ReceivedLog>, now: int)
    requires forall j :: 0 <= j < |logs| ==> logs[j].requestId != id
    ensures AfterBatch(s, id, logs, now) == s
  {
  }

  /** Once a log in the batch matches, the logs after it are never looked at. */
  lemma BatchStopsAtFirstMatch(s: RandomNumberState, id: string, logs: seq<ReceivedLog>,
                               more: seq<ReceivedLog>, now: int)
    requires FirstMatch(logs, id).Some?
    ensures AfterBatch(s, id, logs + more, now) == AfterBatch(s, id, logs, now)
  {
    var k := FirstMatch(logs, id).value;
    assert (logs + more)[k] == logs[k];
  }

  /** Processing a batch keeps the store consistent. */
  lemma BatchPreservesConsistent(s: RandomNumberState, id: string, logs: seq<ReceivedLog>, now: int)
    requires Consistent(s)
    ensures Consistent(AfterBatch(s, id, logs, now))
  {
  }

  /** A listener compares logs against the id it captured, not the store's
      current one, and a new request does not stop it. So after a new request
      has been confirmed under another id, a late log for the old id still
      ends the new request's wait and shows the old request's randomness
      under the new request's id. */
  lemma StaleListenerOverwritesNewRequest(s: RandomNumberState, now: int, wallet: Outcome<bool>,
                                          write: Outcome<string>, receipt: Outcome<Receipt>,
                                          logs: Outcome<seq<RequestedLog>>, staleLog: ReceivedLog, later: int)
    requires RequestSucceeds(wallet, write, receipt, logs)
    requires staleLog.requestId != logs.value[0].requestId
    requires staleLog.randomness.Some?
    ensures var renewed := RequestOutcome(s, now, wallet, write, receipt, logs);
      var after := AfterBatch(renewed, staleLog.requestId, [staleLog], later);
      && renewed.isWaitingForRandomness
      && after.requestId == Some(logs.value[0].requestId)
      && !after.isWaitingForRandomness
      && after.randomNumber.Some?
      && DecimalValue(after.randomNumber.value) == staleLog.randomness.value
  {
    var renewed := RequestOutcome(s, now, wallet, write, receipt, logs);
    assert FirstMatch([staleLog], staleLog.requestId) == Some(0);
    DeliveredCompletes(renewed, staleLog, later);
  }

  /** The same behaviour while a new request is still in flight: a late log
      for the old id delivered between the reset and the confirmation leaves
      a consistent state that waits for the new id and already shows the old
      randomness. */
  lemma StaleDeliveryDuringRequest(s: RandomNumberState, now: int, staleLog: ReceivedLog, later: int,
                                   hash: string, id: string)
    requires staleLog.randomness.Some?
    ensures var shown := Requested(Submitted(AfterBatch(Started(s, now), staleLog.requestId, [staleLog], later), hash), id);
      && Consistent(shown)
      && shown.isWaitingForRandomness
      && shown.requestId == Some(id)
      && shown.randomNumber.Some?
      && DecimalValue(shown.randomNumber.value) == staleLog.randomness.value
  {
    assert FirstMatch([staleLog], staleLog.requestId) == Some(0);
    DeliveredCompletes(Started(s, now), staleLog, later);
  }

  /** The recorded id is that of the first `RandomnessRequested` log in the
      receipt's block, whoever requested it: the requesters of the logs play
      no part in the outcome. */
  lemma RecordedIdIgnoresRequester(s: RandomNumberState, now: int, wallet: Outcome<bool>, write: Outcome<string>,
                                   receipt: Outcome<Receipt>, logs: seq<RequestedLog>, others: seq<RequestedLog>)
    requires |logs| == |others| > 0
    requires forall j :: 0 <= j < |logs| ==> logs[j].requestId == others[j].requestId
    ensures RequestOutcome(s, now, wallet, write, receipt, Returned(logs))
         == RequestOutcome(s, now, wallet, write, receipt, Returned(others))
    ensures RequestSucceeds(wallet, write, receipt, Returned(logs)) ==>
      RequestOutcome(s, now, wallet, write, receipt, Returned(logs)).requestId == Some(logs[0].requestId)
  {
  }

  /** Showing an already shortened number again shows the same text. */
  lemma FormatRandomNumberIdempotent(randomNumber: Option<string>)
    ensures FormatRandomNumber(Some(FormatRandomNumber(randomNumber))) == FormatRandomNumber(randomNumber)
  {
    var r := FormatRandomNumber(randomNumber);
    if |r| > 12 {
      var r' := FormatRandomNumber(Some(r));
      assert r' == r[..6] + "..." + r[9..];
      assert r == r[..6] + r[6..9] + r[9..];
    }
  }

  // ---------------------------------------------------------------------
  // The store and its listeners.

  /** The process-wide `randomNumberStore`. */
  class RandomNumberStore {
    var state: RandomNumberState

    ghost predicate Valid()
      reads this
    {
      Consistent(state)
    }

    constructor ()
      ensures state == InitialState && Valid()
    {
      state := InitialState;
    }

    /** `requestRandomNumber()`: each update of the store is one assignment
        to `state`; a throw at any step lands in the failure update. Returns
        the listener it starts, or null when it starts none. */
    method RequestRandomNumber(now: int, wallet: Outcome<bool>, write: Outcome<string>, receipt: Outcome<Receipt>,
                               logs: Outcome<seq<RequestedLog>>, watch: Outcome<()>)
      returns (listener: RandomnessListener?)
      modifies this
      ensures Valid()
      ensures state == RequestOutcome(old(state), now, wallet, write, receipt, logs)
      ensures listener != null <==> state.isWaitingForRandomness && watch.Returned?
      ensures listener != null ==>
        fresh(listener) && listener.store == this && listener.listening && state.requestId == Some(listener.requestId)
    {
      listener := null;
      state := Started(state, now);
      var thrown: Option<Thrown> := None;
      if wallet.Threw? {
        thrown := Some(wallet.thrown);
      } else if !wallet.value {
        thrown := Some(ErrorObject(WalletNotConnected));
      } else if write.Threw? {
        thrown := Some(write.thrown);
      } else {
        var hash := write.value;
        state := Submitted(state, hash);
        if receipt.Threw? {
          thrown := Some(receipt.thrown);
        } else if logs.Threw? {
          thrown := Some(logs.thrown);
        } else if |logs.value| > 0 {
          var requestId := logs.value[0].requestId;
          state := Requested(state, requestId);
          listener := ListenForRandomness(requestId, watch);
        } else {
          thrown := Some(ErrorObject(RequestEventNotFound));
        }
      }
      if thrown.Some? {
        state := Failed(state, thrown.value);
      }
      RequestSettles(old(state), now, wallet, write, receipt, logs);
    }

    /** `listenForRandomness(requestId)`: starts watching for the request's
        `RandomnessReceived` logs; `watch` is how setting up the watch settled
        (a throw is only logged, and then nothing listens). */
    method ListenForRandomness(requestId: string, watch: Outcome<()>) returns (listener: RandomnessListener?)
      ensures listener != null <==> watch.Returned?
      ensures listener != null ==>
        fresh(listener) && listener.store == this && listener.requestId == requestId && listener.listening
    {
      if watch.Returned? {
        listener := new RandomnessListener(this, requestId);
      } else {
        listener := null;
      }
    }
  }

  /** One `watchEvent` subscription: the request id its callback captured,
      and whether `unwatch()` has been called yet. */
  class RandomnessListener {
    const store: RandomNumberStore
    const requestId: string
    var listening: bool

    constructor (store: RandomNumberStore, requestId: string)
      ensures this.store == store && this.requestId == requestId && listening
    {
      this.store := store;
      this.requestId := requestId;
      listening := true;
    }

    /** The `onLogs` callback for one batch: the first log carrying the
        captured id is delivered to the store and the subscription is
        cancelled; logs for other ids are skipped. After `unwatch()` no
        further batch reaches the callback. */
    method OnLogs(logs: seq<ReceivedLog>, now: int)
      requires store.Valid()
      modifies this, store
      ensures store.Valid()
      ensures !old(listening) ==> store.state == old(store.state) && !listening
      ensures old(listening) ==>
        && store.state == AfterBatch(old(store.state), requestId, logs, now)
        && (listening <==> FirstMatch(logs, requestId).None?)
    {
      if !listening {
        return;
      }
      var i := 0;
      while i < |logs|
        invariant 0 <= i <= |logs|
        invariant forall j :: 0 <= j < i ==> logs[j].requestId != requestId
        invariant store.state == old(store.state) && listening
      {
        var log := logs[i];
        if log.requestId == requestId {
          store.state := Delivered(store.state, log, now);
          listening := false;
          break;
        }
        i := i + 1;
      }
      BatchPreservesConsistent(old(store.state), requestId, logs, now);
    }
  }

  /** The stale-listener behaviour on the objects themselves: a listener for
      request "0xa1" survives a new request confirmed as "0xb2", and its late
      log sets the number shown for "0xb2". */
  method StaleListenerScenario() returns (shown: RandomNumberState)
    ensures shown.requestId == Some("0xb2")
    ensures shown.randomNumber == Some("7") && !shown.isWaitingForRandomness
  {
    var store := new RandomNumberStore();
    var first := store.RequestRandomNumber(1000, Returned(true), Returned("0x01"), Returned(Receipt(5)),
                                           Returned([RequestedLog("0xa1", "0xc0")]), Returned(()));
    var second := store.RequestRandomNumber(2000, Returned(true), Returned("0x02"), Returned(Receipt(6)),
                                            Returned([RequestedLog("0xb2", "0xc0")]), Returned(()));
    assert first != null && first.requestId == "0xa1" && first.listening;
    first.OnLogs([ReceivedLog("0xa1", Some(7), Some("0x03"))], 3000);
    shown := store.state;
  }
}
