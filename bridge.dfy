/** The QML bridge: the session's credential store and the slots the GUI
    calls. Each slot runs its workflow step by step, emitting signals and
    client calls onto `trace`, and is proved to produce exactly the run that
    module BridgeSpec describes. */
module Bridge {
  import opened Base
  import opened Strconv
  import opened CredentialList
  import opened BusyIndicators
  import opened BridgeSpec

  /** Regrouping a trace that grew by two pieces. */
  lemma AppendAssoc<T>(a: seq<T>, b: seq<T>, c: seq<T>)
    ensures a + b + c == a + (b + c)
  {
  }

  /** The applied effect of a store write. */
  function StoreAfter(store: map<string, IssuedCredential>, write: Option<StoreWrite>): map<string, IssuedCredential> {
    match write
    case None => store
    case Some(w) => store[w.key := w.record]
  }

  /** The labels of the value combo box, one per allowed value. */
  function ValueLabels(allowed: seq<int64>): (labels: seq<string>)
    ensures |labels| == |allowed|
    ensures forall i :: 0 <= i < |allowed| ==> labels[i] == ValueLabel(allowed[i])
  {
    seq(|allowed|, i requires 0 <= i < |allowed| => ValueLabel(allowed[i]))
  }

  /** The value list of confirmConfig, built by index into a list of the right length. */
  method ValueList(allowed: seq<int64>) returns (labels: seq<string>)
    ensures |labels| == |allowed|
    ensures forall i :: 0 <= i < |allowed| ==> LabelValue(labels[i]) == Some(allowed[i])
    ensures labels == ValueLabels(allowed)
  {
    labels := seq(|allowed|, _ => "");
    for i := 0 to |allowed|
      invariant |labels| == |allowed|
      invariant forall k :: 0 <= k < i ==> labels[k] == ValueLabel(allowed[k])
    {
      labels := labels[i := FormatInt(allowed[i]) + ValueSuffix];
    }
    forall i | 0 <= i < |allowed|
      ensures LabelValue(labels[i]) == Some(allowed[i])
    {
      LabelRoundTrip(allowed[i]);
    }
  }

  /** Every label offered in the combo box, chosen and handed to getCredential,
      gets past the parse and the token construction. */
  lemma ComboLabelsBuildTokens(allowed: seq<int64>)
    ensures forall i :: 0 <= i < |allowed| ==> TokenBuilds(ValueLabels(allowed)[i], allowed)
  {
    forall i | 0 <= i < |allowed|
      ensures TokenBuilds(ValueLabels(allowed)[i], allowed)
    {
      LabelRoundTrip(allowed[i]);
    }
  }

  /** getCredential leaves the store as it was unless the whole issuance
      succeeds; then it holds exactly one more (or one replaced) entry, at the
      credential's sequence number. */
  lemma GetCredentialStoreEffect(store: map<string, IssuedCredential>, value: string, secret: Big,
                                 allowed: seq<int64>, r: IssuanceResponses)
    ensures !IssuanceSucceeds(value, allowed, r) ==>
      StoreAfter(store, GetCredentialRun(value, secret, allowed, r).write) == store
    ensures IssuanceSucceeds(value, allowed, r) ==>
      var after := StoreAfter(store, GetCredentialRun(value, secret, allowed, r).write);
      var key := r.sequence.coconutString;
      && after.Keys == store.Keys + {key}
      && after[key] == IssuedCredential(r.issued.value, Token(r.sequence, secret, LabelValue(value).value))
      && forall k :: k in store && k != key ==> after[k] == store[k]
  {
  }

  /** Choosing any label of the combo box, getCredential issues a credential
      for exactly that allowed value once the collaborators succeed. */
  lemma ComboChoiceIssuesValue(allowed: seq<int64>, i: int, secret: Big, r: IssuanceResponses)
    requires 0 <= i < |allowed|
    requires r.issued.Some? && r.encoded.Some?
    ensures GetCredentialRun(ValueLabels(allowed)[i], secret, allowed, r).write.Some?
    ensures GetCredentialRun(ValueLabels(allowed)[i], secret, allowed, r).write.value.record.token.value == allowed[i]
  {
    LabelRoundTrip(allowed[i]);
  }

  class QmlBridge {
    /** Whether a client instance exists. */
    const hasClient: bool
    const longtermSecret: Big
    /** The configured service providers, by name, with their addresses. */
    const serviceProviders: map<string, string>
    /** The values the token scheme accepts. */
    const allowedValues: seq<int64>

    /** The session's issued credentials, by the coconut string of their sequence number. */
    var credentialMap: map<string, IssuedCredential>
    /** The signals emitted and the client calls made so far. */
    var trace: seq<Event>

    /** The bridge at start-up: the credential store is empty. */
    constructor (hasClient: bool, longtermSecret: Big, serviceProviders: map<string, string>, allowedValues: seq<int64>)
      ensures this.hasClient == hasClient && this.longtermSecret == longtermSecret
      ensures this.serviceProviders == serviceProviders && this.allowedValues == allowedValues
      ensures credentialMap == map[] && trace == []
    {
      this.hasClient := hasClient;
      this.longtermSecret := longtermSecret;
      this.serviceProviders := serviceProviders;
      this.allowedValues := allowedValues;
      credentialMap := map[];
      trace := [];
    }

    method Emit(e: Event)
      modifies this`trace
      ensures trace == old(trace) + [e]
    {
      trace := trace + [e];
    }

    /** confirmConfig's publication of the value list. */
    method PopulateValues()
      modifies this`trace
      ensures trace == old(trace) + [PopulateValueComboBox(ValueLabels(allowedValues))]
    {
      var valueList := ValueList(allowedValues);
      Emit(PopulateValueComboBox(valueList));
    }

    /** Reports a failed balance query. */
    method ReportQuery(q: Query, reason: Reason)
      modifies this`trace
      ensures trace == old(trace) + QueryNotice(q, reason)
    {
      if q.failed {
        Emit(ErrorNotice(reason));
      }
    }

    method UpdateBalances(r: Readings)
      modifies this`trace
      ensures trace == old(trace) + UpdateBalancesEvents(hasClient, r)
    {
      if !hasClient {
        Emit(ErrorNotice(NilClient));
        return;
      }
      ghost var n1 := QueryNotice(r.erc20, ERC20QueryFailed);
      ghost var n2 := QueryNotice(r.pending, ERC20PendingQueryFailed);
      ghost var n3 := QueryNotice(r.nym, NymQueryFailed);
      var erc20 := UpdateERC20NymBalance(FormatUint(r.erc20.value));
      var pending := UpdateERC20NymBalancePending(FormatUint(r.pending.value));
      var nym := UpdateNymTokenBalance(FormatUint(r.nym.value));
      ReportQuery(r.erc20, ERC20QueryFailed);
      ReportQuery(r.pending, ERC20PendingQueryFailed);
      AppendAssoc(old(trace), n1, n2);
      ReportQuery(r.nym, NymQueryFailed);
      AppendAssoc(old(trace), n1 + n2, n3);
      Emit(erc20);
      AppendAssoc(old(trace), n1 + n2 + n3, [erc20]);
      Emit(pending);
      AppendAssoc(old(trace), n1 + n2 + n3 + [erc20], [pending]);
      Emit(nym);
      AppendAssoc(old(trace), n1 + n2 + n3 + [erc20] + [pending], [nym]);
    }

    /** What one tick of the polling loop publishes: the current balance or
        its query error, then the pending balance or its query error. */
    method PublishTick(current: Query, pending: Query)
      modifies this`trace
      ensures trace == old(trace) + Published(Tick(current, pending))
    {
      if current.failed {
        Emit(ErrorNotice(ERC20QueryFailed));
      } else {
        Emit(UpdateERC20NymBalance(FormatUint(current.value)));
      }
      ghost var first := trace[|old(trace)|..];
      assert trace == old(trace) + first;
      if pending.failed {
        Emit(ErrorNotice(ERC20PendingQueryFailed));
      } else {
        Emit(UpdateERC20NymBalancePending(FormatUint(pending.value)));
      }
      AppendAssoc(old(trace), first, [trace[|trace| - 1]]);
    }

    /** The polling loop: consumes one event per iteration until the expected
        balance is seen, the context ends, or the events run out. */
    method WaitForERC20BalanceChange(expected: uint64, events: seq<WaitEvent>) returns (returned: bool)
      modifies this`trace
      ensures trace == old(trace) + ERC20Wait(hasClient, expected, events).emitted
      ensures returned <==> ERC20Wait(hasClient, expected, events).end != StillWaiting
    {
      if !hasClient {
        Emit(ErrorNotice(NilClient));
        return true;
      }
      var i := 0;
      returned := false;
      while i < |events| && !returned
        invariant 0 <= i <= |events|
        invariant !returned ==>
          && old(trace) + Poll(expected, events).emitted == trace + Poll(expected, events[i..]).emitted
          && Poll(expected, events).end == Poll(expected, events[i..]).end
        invariant returned ==> trace == old(trace) + Poll(expected, events).emitted && Poll(expected, events).end != StillWaiting
        decreases |events| - i, !returned
      {
        var e := events[i];
        ghost var before := trace;
        PollStep(expected, events, i);
        match e {
          case Cancel =>
            Emit(ErrorNotice(WaitTimedOut));
            returned := true;
          case Tick(current, pending) =>
            PublishTick(current, pending);
            returned := current.value == expected;
        }
        AppendAssoc(before, Published(e), Poll(expected, events[i + 1..]).emitted);
        i := i + 1;
      }
      if !returned {
        assert events[i..] == [];
      }
    }

    /** The goroutine body of sendToPipeAccount; `finished` is false while it
        is still blocked in the ERC20 wait. */
    method SendToPipeAccountBody(amount: string, r: FundingResponses) returns (finished: bool)
      requires hasClient
      modifies this`trace
      ensures trace == old(trace) + SendToPipeAccountRun(amount, r).events
      ensures finished == SendToPipeAccountRun(amount, r).finished
    {
      var parsed := ParseInt(amount);
      if parsed.None? {
        Emit(ErrorNotice(ParseFailed));
        return true;
      }
      var amountInt64 := parsed.value;
      if r.erc20Before.failed {
        Emit(ErrorNotice(ERC20QueryFailed));
        return true;
      }
      var currentERC20Balance := r.erc20Before.value;
      if r.nymBefore.failed {
        Emit(ErrorNotice(NymQueryFailed));
        return true;
      }
      var currentNymBalance := r.nymBefore.value;
      var submit := Called(SendToPipeAccountCall(amountInt64));
      Emit(submit);
      if r.submitFailed {
        Emit(ErrorNotice(SendFailed));
        AppendAssoc(old(trace), [submit], [ErrorNotice(SendFailed)]);
        return true;
      }
      var erc20Target := WrapSub(currentERC20Balance, ToUint64(amountInt64));
      ghost var w := Poll(erc20Target, r.erc20Wait);
      var returned := WaitForERC20BalanceChange(erc20Target, r.erc20Wait);
      AppendAssoc(old(trace), [submit], w.emitted);
      if !returned {
        return false;
      }
      var nymTarget := WrapAdd(currentNymBalance, ToUint64(amountInt64));
      var waitNym := Called(WaitForBalanceChangeCall(nymTarget));
      Emit(waitNym);
      AppendAssoc(old(trace), [submit] + w.emitted, [waitNym]);
      ghost var waited := [submit] + w.emitted + [waitNym];
      if r.nymWaitFailed {
        Emit(ErrorNotice(NymQueryFailed));
        AppendAssoc(old(trace), waited, [ErrorNotice(NymQueryFailed)]);
        return true;
      }
      var update := UpdateNymTokenBalance(FormatUint(nymTarget));
      Emit(update);
      AppendAssoc(old(trace), waited, [update]);
      Emit(ResetWaitingForEthereumLabel);
      AppendAssoc(old(trace), waited + [update], [ResetWaitingForEthereumLabel]);
      return true;
    }

    /** The goroutine body of redeemTokens; `finished` is false while it is
        still blocked in the ERC20 wait. */
    method RedeemTokensBody(amount: string, r: FundingResponses) returns (finished: bool)
      requires hasClient
      modifies this`trace
      ensures trace == old(trace) + RedeemTokensRun(amount, r).events
      ensures finished == RedeemTokensRun(amount, r).finished
    {
      var parsed := ParseInt(amount);
      if parsed.None? {
        Emit(ErrorNotice(ParseFailed));
        return true;
      }
      var amountInt64 := parsed.value;
      if r.erc20Before.failed {
        Emit(ErrorNotice(ERC20QueryFailed));
        return true;
      }
      var currentERC20Balance := r.erc20Before.value;
      if r.nymBefore.failed {
        Emit(ErrorNotice(NymQueryFailed));
        return true;
      }
      var currentNymBalance := r.nymBefore.value;
      var submit := Called(RedeemTokensCall(ToUint64(amountInt64)));
      Emit(submit);
      if r.submitFailed {
        Emit(ErrorNotice(RedeemFailed));
        AppendAssoc(old(trace), [submit], [ErrorNotice(RedeemFailed)]);
        return true;
      }
      var nymTarget := WrapSub(currentNymBalance, ToUint64(amountInt64));
      var waitNym := Called(WaitForBalanceChangeCall(nymTarget));
      Emit(waitNym);
      AppendAssoc(old(trace), [submit], [waitNym]);
      if r.nymWaitFailed {
        Emit(ErrorNotice(NymQueryFailed));
        AppendAssoc(old(trace), [submit] + [waitNym], [ErrorNotice(NymQueryFailed)]);
        return true;
      }
      var update := UpdateNymTokenBalance(FormatUint(nymTarget));
      Emit(update);
      AppendAssoc(old(trace), [submit] + [waitNym], [update]);
      ghost var prefix := [submit] + [waitNym] + [update];
      var erc20Target := WrapAdd(currentERC20Balance, ToUint64(amountInt64));
      ghost var w := Poll(erc20Target, r.erc20Wait);
      var returned := WaitForERC20BalanceChange(erc20Target, r.erc20Wait);
      AppendAssoc(old(trace), prefix, w.emitted);
      if !returned {
        return false;
      }
      Emit(ResetWaitingForEthereumLabel);
      AppendAssoc(old(trace), prefix + w.emitted, [ResetWaitingForEthereumLabel]);
      return true;
    }

    /** The goroutine body of getCredential. */
    method GetCredentialBody(value: string, r: IssuanceResponses)
      requires hasClient
      modifies this`trace, this`credentialMap
      ensures trace == old(trace) + GetCredentialRun(value, longtermSecret, allowedValues, r).events
      ensures credentialMap == StoreAfter(old(credentialMap), GetCredentialRun(value, longtermSecret, allowedValues, r).write)
    {
      ghost var run := GetCredentialRun(value, longtermSecret, allowedValues, r);
      var valueInt64 := LabelValue(value);
      if valueInt64.None? {
        Emit(ErrorNotice(ParseFailed));
        assert run == IssuanceRun([ErrorNotice(ParseFailed)], None);
        return;
      }
      var sequence := r.sequence;
      var token := NewToken(sequence, longtermSecret, valueInt64.value, allowedValues);
      if token.None? {
        Emit(ErrorNotice(TokenFailed));
        assert run == IssuanceRun([ErrorNotice(TokenFailed)], None);
        return;
      }
      var request := Called(GetCredentialCall(token.value));
      Emit(request);
      if r.issued.None? {
        Emit(ErrorNotice(IssuanceFailed));
        AppendAssoc(old(trace), [request], [ErrorNotice(IssuanceFailed)]);
        assert run == IssuanceRun([request] + [ErrorNotice(IssuanceFailed)], None);
        return;
      }
      var cred := r.issued.value;
      UpdateBalances(r.readings);
      AppendAssoc(old(trace), [request], UpdateBalancesEvents(true, r.readings));
      ghost var refreshed := [request] + UpdateBalancesEvents(true, r.readings);
      if r.encoded.None? {
        Emit(ErrorNotice(MarshalFailed));
        AppendAssoc(old(trace), refreshed, [ErrorNotice(MarshalFailed)]);
        assert run == IssuanceRun(refreshed + [ErrorNotice(MarshalFailed)], None);
        return;
      }
      var seqString := sequence.coconutString;
      var item := CredentialListItem(seqString, r.encoded.value, ToUint64(valueInt64.value));
      ghost var write := StoreWrite(seqString, IssuedCredential(cred, token.value));
      assert run == IssuanceRun(refreshed + [AddCredentialListItem(item)], Some(write));
      credentialMap := credentialMap[seqString := IssuedCredential(cred, token.value)];
      Emit(AddCredentialListItem(item));
      AppendAssoc(old(trace), refreshed, [AddCredentialListItem(item)]);
    }

    /** The goroutine body of spendCredential; the store is only read. */
    method SpendCredentialBody(chosenSP: string, seqString: string, r: SpendResponse)
      requires hasClient
      modifies this`trace
      ensures trace == old(trace) + SpendCredentialRun(chosenSP, seqString, serviceProviders, credentialMap, r)
    {
      if chosenSP !in serviceProviders {
        Emit(ErrorNotice(UnknownProvider));
        return;
      }
      var spAddress := serviceProviders[chosenSP];
      if seqString !in credentialMap {
        Emit(ErrorNotice(UnknownCredential));
        return;
      }
      var cred := credentialMap[seqString];
      var spend := Called(SpendCredentialCall(cred.token, cred.credential, chosenSP, spAddress));
      Emit(spend);
      if r.failed {
        Emit(ErrorNotice(SpendFailed));
        AppendAssoc(old(trace), [spend], [ErrorNotice(SpendFailed)]);
        return;
      }
      var verdict := if r.wasSuccessful then SpendAccepted else SpendRejected;
      Emit(DisplayNotification(verdict, InfoTitle));
      AppendAssoc(old(trace), [spend], [DisplayNotification(verdict, InfoTitle)]);
      Emit(MarkSpentCredential);
      AppendAssoc(old(trace), [spend] + [DisplayNotification(verdict, InfoTitle)], [MarkSpentCredential]);
    }

    /** The goroutine body of getFaucetNym. */
    method GetFaucetNymBody(r: FaucetResponses)
      requires hasClient
      modifies this`trace
      ensures trace == old(trace) + GetFaucetNymRun(r)
    {
      var nyms := FaucetNyms;
      var request := Called(MakeFaucetRequestCall(nyms));
      Emit(request);
      if r.request.None? {
        Emit(ErrorNotice(FaucetRequestFailed));
        AppendAssoc(old(trace), [request], [ErrorNotice(FaucetRequestFailed)]);
        return;
      }
      var txs := r.request.value;
      var waitERC20 := Called(WaitForEthereumTxCall(txs.erc20Hash));
      Emit(waitERC20);
      AppendAssoc(old(trace), [request], [waitERC20]);
      if r.erc20Tx.None? {
        Emit(ErrorNotice(ERC20TxFailed));
        AppendAssoc(old(trace), [request] + [waitERC20], [ErrorNotice(ERC20TxFailed)]);
        return;
      }
      var successERC20 := r.erc20Tx.value;
      var waitEther := Called(WaitForEthereumTxCall(txs.etherHash));
      Emit(waitEther);
      AppendAssoc(old(trace), [request] + [waitERC20], [waitEther]);
      ghost var waited := [request] + [waitERC20] + [waitEther];
      if r.etherTx.None? {
        Emit(ErrorNotice(EtherTxFailed));
        AppendAssoc(old(trace), waited, [ErrorNotice(EtherTxFailed)]);
        return;
      }
      var successEther := r.etherTx.value;
      ghost var reported: seq<Event>;
      if successERC20 && successEther {
        UpdateBalances(r.readings);
        AppendAssoc(old(trace), waited, UpdateBalancesEvents(true, r.readings));
        Emit(DisplayNotification(FaucetReceived, InfoTitle));
        AppendAssoc(old(trace), waited + UpdateBalancesEvents(true, r.readings), [DisplayNotification(FaucetReceived, InfoTitle)]);
        reported := UpdateBalancesEvents(true, r.readings) + [DisplayNotification(FaucetReceived, InfoTitle)];
        AppendAssoc(waited, UpdateBalancesEvents(true, r.readings), [DisplayNotification(FaucetReceived, InfoTitle)]);
      } else {
        Emit(DisplayNotification(FaucetUnknownError, WarningTitle));
        AppendAssoc(old(trace), waited, [DisplayNotification(FaucetUnknownError, WarningTitle)]);
        reported := [DisplayNotification(FaucetUnknownError, WarningTitle)];
      }
      Emit(ResetWaitingForEthereumLabel);
      AppendAssoc(old(trace), waited + reported, [ResetWaitingForEthereumLabel]);
      AppendAssoc(waited, reported, [ResetWaitingForEthereumLabel]);
    }

    /** The slot forceUpdateBalances: the refresh runs inside the busy bracket,
        which is released afterwards. */
    method ForceUpdateBalances(indicator: BusyIndicator?, enabled: array<bool>, r: Readings)
      modifies this`trace, indicator, enabled
      ensures trace == old(trace) + UpdateBalancesEvents(hasClient, r)
      ensures Busy(indicator, enabled, false)
    {
      ToggleIndicatorAndObjects(indicator, enabled, true);
      UpdateBalances(r);
      ToggleIndicatorAndObjects(indicator, enabled, false);
    }

    /** The slot sendToPipeAccount. Without a client it only reports the
        error. Otherwise the body runs inside the busy bracket, which is
        released on every path on which the body returns. */
    method SendToPipeAccount(amount: string, indicator: BusyIndicator?, enabled: array<bool>, r: FundingResponses)
      returns (finished: bool)
      modifies this`trace, indicator, enabled
      ensures !hasClient ==>
        && trace == old(trace) + [ErrorNotice(NilClient)] && finished
        && (indicator != null ==> indicator.running == old(indicator.running))
        && enabled[..] == old(enabled[..])
      ensures hasClient ==>
        && trace == old(trace) + SendToPipeAccountRun(amount, r).events
        && finished == SendToPipeAccountRun(amount, r).finished
        && Busy(indicator, enabled, !finished)
    {
      if !hasClient {
        Emit(ErrorNotice(NilClient));
        return true;
      }
      ToggleIndicatorAndObjects(indicator, enabled, true);
      finished := SendToPipeAccountBody(amount, r);
      if finished {
        ToggleIndicatorAndObjects(indicator, enabled, false);
      }
    }

    /** The slot redeemTokens, with the same bracket as sendToPipeAccount. */
    method RedeemTokens(amount: string, indicator: BusyIndicator?, enabled: array<bool>, r: FundingResponses)
      returns (finished: bool)
      modifies this`trace, indicator, enabled
      ensures !hasClient ==>
        && trace == old(trace) + [ErrorNotice(NilClient)] && finished
        && (indicator != null ==> indicator.running == old(indicator.running))
        && enabled[..] == old(enabled[..])
      ensures hasClient ==>
        && trace == old(trace) + RedeemTokensRun(amount, r).events
        && finished == RedeemTokensRun(amount, r).finished
        && Busy(indicator, enabled, !finished)
    {
      if !hasClient {
        Emit(ErrorNotice(NilClient));
        return true;
      }
      ToggleIndicatorAndObjects(indicator, enabled, true);
      finished := RedeemTokensBody(amount, r);
      if finished {
        ToggleIndicatorAndObjects(indicator, enabled, false);
      }
    }

    /** The slot getCredential: the store is written on the full success path only. */
    method GetCredential(value: string, indicator: BusyIndicator?, enabled: array<bool>, r: IssuanceResponses)
      modifies this`trace, this`credentialMap, indicator, enabled
      ensures !hasClient ==>
        && trace == old(trace) + [ErrorNotice(NilClient)]
        && credentialMap == old(credentialMap)
        && (indicator != null ==> indicator.running == old(indicator.running))
        && enabled[..] == old(enabled[..])
      ensures hasClient ==>
        && trace == old(trace) + GetCredentialRun(value, longtermSecret, allowedValues, r).events
        && credentialMap == StoreAfter(old(credentialMap), GetCredentialRun(value, longtermSecret, allowedValues, r).write)
        && Busy(indicator, enabled, false)
    {
      if !hasClient {
        Emit(ErrorNotice(NilClient));
        return;
      }
      ToggleIndicatorAndObjects(indicator, enabled, true);
      GetCredentialBody(value, r);
      ToggleIndicatorAndObjects(indicator, enabled, false);
    }

    /** The slot spendCredential; it never changes the store. */
    method SpendCredential(chosenSP: string, seqString: string, indicator: BusyIndicator?, enabled: array<bool>,
                           r: SpendResponse)
      modifies this`trace, indicator, enabled
      ensures !hasClient ==>
        && trace == old(trace) + [ErrorNotice(NilClient)]
        && (indicator != null ==> indicator.running == old(indicator.running))
        && enabled[..] == old(enabled[..])
      ensures hasClient ==>
        && trace == old(trace) + SpendCredentialRun(chosenSP, seqString, serviceProviders, credentialMap, r)
        && Busy(indicator, enabled, false)
    {
      if !hasClient {
        Emit(ErrorNotice(NilClient));
        return;
      }
      ToggleIndicatorAndObjects(indicator, enabled, true);
      SpendCredentialBody(chosenSP, seqString, r);
      ToggleIndicatorAndObjects(indicator, enabled, false);
    }

    /** The slot getFaucetNym. */
    method GetFaucetNym(indicator: BusyIndicator?, enabled: array<bool>, r: FaucetResponses)
      modifies this`trace, indicator, enabled
      ensures !hasClient ==>
        && trace == old(trace) + [ErrorNotice(NilClient)]
        && (indicator != null ==> indicator.running == old(indicator.running))
        && enabled[..] == old(enabled[..])
      ensures hasClient ==>
        && trace == old(trace) + GetFaucetNymRun(r)
        && Busy(indicator, enabled, false)
    {
      if !hasClient {
        Emit(ErrorNotice(NilClient));
        return;
      }
      ToggleIndicatorAndObjects(indicator, enabled, true);
      GetFaucetNymBody(r);
      ToggleIndicatorAndObjects(indicator, enabled, false);
    }

    /** The slot randomizeCredential: replaces the stored signature of one
        credential by its re-randomized form and returns that form's encoding. */
    method RandomizeCredential(seqString: string, r: RandomizeResponses) returns (encoded: string)
      modifies this`trace, this`credentialMap
      ensures encoded == RandomizeCredentialRun(seqString, old(credentialMap), r).result
      ensures credentialMap == RandomizeCredentialRun(seqString, old(credentialMap), r).store
      ensures trace == old(trace) + RandomizeCredentialRun(seqString, old(credentialMap), r).events
    {
      if seqString !in credentialMap {
        Emit(ErrorNotice(UnknownCredential));
        return "";
      }
      if r.randomized.Some? {
        credentialMap := credentialMap[seqString := credentialMap[seqString].(credential := r.randomized.value)];
      }
      if r.encoded.None? {
        Emit(ErrorNotice(RandomizedMarshalFailed));
        return "";
      }
      return r.encoded.value;
    }
  }
}
