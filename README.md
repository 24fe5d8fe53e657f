# Nym validator qt-demo: bridge, list models and credential store in Dafny

This project models the core of the Nym validator's Qt demo wallet. It has three parts.

- **The two list models** behind the GUI's lists. `ServerDisplayListModel` holds the validator servers and `CredentialListModel` holds the credentials obtained in this session. Each is a class whose `modelData` field is a growable buffer. The Go code's operations are append (the server model first checks the argument count), drop-last, overwrite-last (server model only), a row count and a role-indexed lookup. The Qt row notifications (`BeginInsertRows` … `EndRemoveRows`, `DataChanged`) become a `rowChanges` log.
- **The busy-indicator bracket** that every background workflow sits in. It is modelled as one `running` flag on a possibly absent indicator, plus an array of `enabled` flags for the locked controls.
- **The QML bridge** (`QmlBridge`). It holds the session's credential store `credentialMap` (a package-level variable in the Go code, made a field here) and the GUI slots: `forceUpdateBalances`, `sendToPipeAccount`, `redeemTokens`, `getCredential`, `spendCredential`, `getFaucetNym` and `randomizeCredential`. It also holds the value list that `confirmConfig` publishes.
  - Every signal the bridge emits goes onto a `trace`. So does every client call that submits something or waits for something.
  - What the blockchain and credential client answers is a parameter of the slot (a response record). The polling loop of `waitForERC20BalanceChange` consumes a finite sequence of ticks and cancellations. A cancellation stands for the end of that function's general `ctx` parameter.
  - `waitForERC20BalanceChange` has two callers, `sendToPipeAccount` and `redeemTokens`, and both pass `context.TODO()`, which never ends. Their waits therefore see only ticks: they never time out, and they finish only on a tick that returns the target balance. Otherwise they block forever, with the busy indicator on.

Module `BridgeSpec` states each workflow as a function of its inputs and of the collaborators' answers, with contracts about the resulting trace and store. The imperative `QmlBridge` methods in module `Bridge` run the same steps one at a time, with early returns. They are proved to produce exactly those traces and stores.

The deferred release of the busy indicator is modelled like this:
- A slot toggles the bracket on and runs the body.
- It toggles the bracket off whenever the body returns.
- If the wait events run out first, the body is still blocked: the bracket stays on and the slot reports the run as not finished.

Go's `uint64` and `int64` are subset types. Their wrap-around on `uint64(x)`, `+` and `-` is written out in `Base`. `strconv.FormatUint`, `strconv.FormatInt`, `strconv.ParseInt(s, 10, 64)` and `strings.TrimSuffix` are modelled in `Strconv`.

## Model

| member | source | states |
|---|---|---|
| Base.ToUint64 | qt-demo/bridge.go:361 | `uint64(x)` of an `int64` agrees with `x` modulo 2^64, is `x` itself for non-negative `x`, and lands in the upper half for negative `x` |
| Base.WrapAdd | qt-demo/bridge.go:320 | `uint64` addition is the sum modulo 2^64; without overflow it is the exact sum, and on overflow the result is smaller than the first operand |
| Base.WrapSub | qt-demo/bridge.go:318 | `uint64` subtraction is undone by `WrapAdd`; it is the exact difference when no borrow occurs, and wraps to a larger value when the subtrahend is bigger |
| Strconv.FormatUint | qt-demo/bridge.go:186-188 | the decimal rendering is non-empty, all digits, and has no leading zero except for "0" |
| Strconv.FormatUintValue | qt-demo/bridge.go:186-188 | the digits of the decimal rendering denote exactly the number rendered |
| Strconv.FormatInt | qt-demo/bridge.go:257 | the rendering is non-empty and starts with '-' exactly for negative numbers |
| Strconv.ParseInt | qt-demo/bridge.go:292 | a parse that succeeds had a non-empty input, and the sign of its value follows the leading '-'; the empty string and a lone sign are rejected |
| Strconv.TrimSuffix | qt-demo/bridge.go:387 | the result is the input or the input with the suffix removed, and the suffix is removed whenever the input ends with it |
| Strconv.TrimSuffixOfAppended | qt-demo/bridge.go:387 | trimming a suffix from a string that was built by appending it gives back the original string |
| Strconv.ParseUnsigned | qt-demo/bridge.go:292 | a non-empty run of digits below 2^63 parses to the number it denotes |
| Strconv.ParseNegative | qt-demo/bridge.go:292 | '-' before a run of digits up to 2^63 parses to minus the number it denotes |
| Strconv.ParseFormatInt | qt-demo/bridge.go:255-258 | for every `int64`, parsing its base-10 rendering gives the same value back |
| ServerDisplayList.RolesDistinct | qt-demo/serverdisplaylistmodel.go:26-29 | `IdentifierRole` (UserRole+1) and `AddressRole` (UserRole+2) differ |
| ServerDisplayList.ServerDisplayListModel.constructor | qt-demo/serverdisplaylistmodel.go:44 | a new model has no rows and has sent no notifications |
| ServerDisplayList.ServerDisplayListModel.RowCount | qt-demo/serverdisplaylistmodel.go:60-62 | the row count is the number of rows |
| ServerDisplayList.ServerDisplayListModel.Data | qt-demo/serverdisplaylistmodel.go:64-72 | for an in-range row: the identifier for `IdentifierRole`, the address for `AddressRole`, an invalid variant for any other role |
| ServerDisplayList.ServerDisplayListModel.Remove | qt-demo/serverdisplaylistmodel.go:78-85 | an empty list is left unchanged with no notification; otherwise exactly the last row is dropped, the prefix is kept, and remove-rows for that index is announced |
| ServerDisplayList.ServerDisplayListModel.Add | qt-demo/serverdisplaylistmodel.go:87-95 | an argument count other than two leaves the list and the log unchanged; otherwise the row (string of item 0, string of item 1) is appended after the unchanged rows, with insert-rows at the old length |
| ServerDisplayList.ServerDisplayListModel.Edit | qt-demo/serverdisplaylistmodel.go:97-103 | an empty list is left unchanged; otherwise only the last row is replaced, the length and other rows stay, and a display-role data change of that row is announced |
| CredentialList.RolesDistinct | qt-demo/credentiallistmodel.go:27-31 | `CredentialRole`, `SequenceRole` and `ValueRole` (UserRole+1, +2, +4) are pairwise distinct |
| CredentialList.RolesShareServerRoleNumbers | qt-demo/credentiallistmodel.go:26-31 | the credential roles have the same numbers as the server roles (`CredentialRole` = `IdentifierRole`, `SequenceRole` = `AddressRole`), since both lists start at UserRole+1 |
| CredentialList.CredentialListModel.constructor | qt-demo/credentiallistmodel.go:45 | a new model has no rows and has sent no notifications |
| CredentialList.CredentialListModel.RowCount | qt-demo/credentiallistmodel.go:62-64 | the row count is the number of rows |
| CredentialList.CredentialListModel.Data | qt-demo/credentiallistmodel.go:66-77 | for an in-range row: the credential, the sequence string or the value for the three roles, an invalid variant for any other role |
| CredentialList.CredentialListModel.Remove | qt-demo/credentiallistmodel.go:79-86 | an empty list is left unchanged; otherwise exactly the last row is dropped and remove-rows for it is announced |
| CredentialList.CredentialListModel.AddItem | qt-demo/credentiallistmodel.go:88-92 | the item is appended after the unchanged rows, with insert-rows at the old length |
| CredentialList.AddItemThenRemove | qt-demo/credentiallistmodel.go:79-92 | adding an item and then removing one restores the original rows |
| BusyIndicators.EnableAllObjects | qt-demo/bridge.go:96-100 | afterwards every object is enabled |
| BusyIndicators.DisableAllObjects | qt-demo/bridge.go:102-106 | afterwards every object is disabled |
| BusyIndicators.ToggleIndicatorAndObjects | qt-demo/bridge.go:108-124 | afterwards a present indicator runs exactly when `run`, and every object is enabled exactly when not `run` |
| BridgeSpec.LabelRoundTrip | qt-demo/bridge.go:387-388 | the combo-box label of any `int64` value, trimmed of "Nym" and parsed, gives that value back |
| BridgeSpec.UpdateBalancesEvents | qt-demo/bridge.go:168-189 | without a client, only the nil-client error; otherwise one error notice per failed query, then the three balances in order, each published even if its query failed |
| BridgeSpec.Poll | qt-demo/bridge.go:141-165 | the loop stops at the first cancellation or the first tick whose balance equals the target, and at no earlier event; it ends as a match exactly on a tick; if no event ends it, all events are consumed and it is still waiting; it only publishes balances and error notices |
| BridgeSpec.PollStep | qt-demo/bridge.go:142-163 | at each position the loop publishes that event's reports, then either stops there (when the event ends the wait) or continues with exactly the rest of the events |
| BridgeSpec.PollPublishes | qt-demo/bridge.go:141-164 | what the loop publishes is, in order, exactly the reports of the events it consumed |
| BridgeSpec.FailedQueryKeepsPolling | qt-demo/bridge.go:144-160 | a failed query whose value is not the target is reported as an error and does not end the loop |
| BridgeSpec.FailedQueryCanMatch | qt-demo/bridge.go:144-160 | the comparison also applies to the value returned together with a query error, so such a value equal to the target ends the wait |
| BridgeSpec.PollWithoutCancel | qt-demo/bridge.go:141-165 | when the events are ticks only, the loop never times out: it ends as a match exactly when some tick returned the target, and otherwise is still waiting |
| BridgeSpec.ERC20Wait | qt-demo/bridge.go:134-165 | without a client the wait gives up at once with one error and consumes no events; otherwise it is the polling loop |
| BridgeSpec.SendToPipeAccountRun | qt-demo/bridge.go:292-296 | an amount that does not parse ends the run with its error before any query; otherwise the run is the one for the parsed amount |
| BridgeSpec.SendParsedToPipeAccount | qt-demo/bridge.go:298-315 | an ERC20 query failure, a Nym query failure (both before any call) and a submission failure (right after the transfer call) each end the run with their error only |
| BridgeSpec.SendToPipeAccountReports | qt-demo/bridge.go:312-321 | after the transfer call come the reports of the ERC20 wait for the balance minus the amount (wrapping); the run finishes exactly when that wait returns, and then waits for the Nym balance plus the amount (wrapping) |
| BridgeSpec.SendToPipeAccountResets | qt-demo/bridge.go:298-326 | the label is reset exactly when the balances were read, the transfer was submitted, the ERC20 wait returned and the Nym wait succeeded |
| BridgeSpec.SendToPipeAccountNeverTimesOut | qt-demo/bridge.go:311-318 | the wait on `context.TODO()` sees only ticks, so the run never reports a wait timeout |
| BridgeSpec.SendToPipeAccountFinishesOnMatch | qt-demo/bridge.go:311-326 | with only ticks, once the transfer is submitted the run finishes exactly when some tick returns the ERC20 balance minus the amount (wrapping); otherwise it stays blocked |
| BridgeSpec.AfterNymWait | qt-demo/bridge.go:320-326 | the Nym wait call follows the earlier events unchanged, then its error, or the new Nym balance and the label reset; the reset comes exactly when the wait succeeded |
| BridgeSpec.RedeemTokensRun | qt-demo/bridge.go:346-350 | an amount that does not parse ends the run with its error before any query; otherwise the run is the one for the parsed amount |
| BridgeSpec.RedeemParsedTokens | qt-demo/bridge.go:352-368 | the same query and submission failures end the run with their error only; a failed Nym wait ends it after the redemption call and the wait for the balance minus the amount (wrapping) |
| BridgeSpec.RedeemTokensReports | qt-demo/bridge.go:363-372 | on the success path: the redemption call, the Nym wait for the balance minus the amount, the new Nym balance, then the reports of the ERC20 wait for the balance plus the amount (wrapping); the run finishes exactly when that wait returns |
| BridgeSpec.RedeemTokensResets | qt-demo/bridge.go:352-373 | the label is reset exactly when the balances were read, the redemption was submitted, the Nym wait succeeded and the ERC20 wait returned |
| BridgeSpec.RedeemTokensNeverTimesOut | qt-demo/bridge.go:359-372 | the wait on `context.TODO()` sees only ticks, so the run never reports a wait timeout |
| BridgeSpec.RedeemTokensFinishesOnMatch | qt-demo/bridge.go:359-373 | with only ticks, once the Nym wait succeeded the run finishes exactly when some tick returns the ERC20 balance plus the amount (wrapping); otherwise it stays blocked |
| BridgeSpec.AfterERC20Wait | qt-demo/bridge.go:372-373 | the wait's reports follow the prefix unchanged, and the label reset comes exactly when the wait returned |
| BridgeSpec.AfterERC20WaitAddsOnlyReset | qt-demo/bridge.go:372-373 | apart from the prefix and the wait's reports, the only event added is the label reset |
| BridgeSpec.GetCredentialRun | qt-demo/bridge.go:387-436 | the store is written exactly on the full success path, with the issued signature and the built token at the sequence string |
| BridgeSpec.GetCredentialRequestsFirst | qt-demo/bridge.go:387-406 | no client call unless the label parses to an allowed value, and then the issuance call with the built token comes first |
| BridgeSpec.GetCredentialEnds | qt-demo/bridge.go:406-436 | on success the last event is the new list item; on any failure no list item is added and the run ends with an error notice |
| BridgeSpec.SpendCredentialRun | qt-demo/bridge.go:450-476 | the provider is checked before the credential; an unknown provider or credential gives only its error and no spend call; otherwise the spend call, then a transport error or the verdict notice plus the spent mark; the credential is marked spent exactly when the spend returned no error |
| BridgeSpec.GetFaucetNymRun | qt-demo/bridge.go:540-556 | the faucet request for 50 Nym comes first; an error ends the run with its notice after at most the two waits and before any reset |
| BridgeSpec.GetFaucetNymReports | qt-demo/bridge.go:546-565 | when both waits return, the two waits follow the request, then the balance refresh and info notice if both transactions succeeded or a warning otherwise, then the label reset |
| BridgeSpec.GetFaucetNymResets | qt-demo/bridge.go:540-565 | the label is reset exactly when both waits returned, and no Nym balance is published unless both transactions succeeded |
| BridgeSpec.RandomizeCredentialRun | qt-demo/bridge.go:570-588 | an unknown key gives "" with an error and an unchanged store; otherwise the keys, the other entries and the token stay, and the signature is replaced exactly when a re-randomized one came back; the result is its encoding, or "" with an error if marshalling failed |
| Bridge.ValueLabels | qt-demo/bridge.go:255-258 | one label per allowed value, each the value's decimal form followed by "Nym" |
| Bridge.ValueList | qt-demo/bridge.go:255-258 | the loop builds one label per allowed value, and every label parses back to its value |
| Bridge.ComboLabelsBuildTokens | qt-demo/bridge.go:387-400 | every label offered in the combo box passes getCredential's parse and token construction |
| Bridge.ComboChoiceIssuesValue | qt-demo/bridge.go:387-434 | choosing any offered label, a successful issuance stores a token of exactly that allowed value |
| Bridge.GetCredentialStoreEffect | qt-demo/bridge.go:426-434 | the store is unchanged unless the issuance succeeds; then the keys grow by the sequence string only, that entry holds the new credential, and every other entry is unchanged |
| Bridge.QmlBridge.constructor | qt-demo/main.go:62 | the credential store starts empty |
| Bridge.QmlBridge.PopulateValues | qt-demo/bridge.go:255-259 | one populate signal carrying the labels of the allowed values |
| Bridge.QmlBridge.UpdateBalances | qt-demo/bridge.go:168-189 | the trace grows by exactly the updateBalances events |
| Bridge.QmlBridge.PublishTick | qt-demo/bridge.go:144-156 | one tick emits exactly that tick's reports: the current balance or its error, then the pending balance or its error |
| Bridge.QmlBridge.WaitForERC20BalanceChange | qt-demo/bridge.go:134-165 | the loop emits exactly what the polling function publishes, and returns exactly when that function's wait ends |
| Bridge.QmlBridge.SendToPipeAccountBody | qt-demo/bridge.go:292-326 | the step-by-step body emits exactly the sendToPipeAccount run and returns exactly when it finishes |
| Bridge.QmlBridge.RedeemTokensBody | qt-demo/bridge.go:340-373 | the step-by-step body emits exactly the redeemTokens run and returns exactly when it finishes |
| Bridge.QmlBridge.GetCredentialBody | qt-demo/bridge.go:387-436 | the step-by-step body emits exactly the getCredential run and applies exactly its store write |
| Bridge.QmlBridge.SpendCredentialBody | qt-demo/bridge.go:450-476 | the step-by-step body emits exactly the spendCredential run; the store is outside its frame, so it never changes |
| Bridge.QmlBridge.GetFaucetNymBody | qt-demo/bridge.go:540-565 | the step-by-step body emits exactly the getFaucetNym run |
| Bridge.QmlBridge.ForceUpdateBalances | qt-demo/bridge.go:273-280 | the refresh runs inside the bracket, and the indicator is stopped and every object enabled afterwards, with or without a client |
| Bridge.QmlBridge.SendToPipeAccount | qt-demo/bridge.go:282-328 | without a client only the error, with the bracket untouched; otherwise the body's run, with the bracket released exactly when the body returned |
| Bridge.QmlBridge.RedeemTokens | qt-demo/bridge.go:330-375 | without a client only the error, with the bracket untouched; otherwise the body's run, with the bracket released exactly when the body returned |
| Bridge.QmlBridge.GetCredential | qt-demo/bridge.go:377-438 | without a client only the error, with the store and bracket untouched; otherwise the body's run and store write, with the bracket released |
| Bridge.QmlBridge.SpendCredential | qt-demo/bridge.go:440-478 | without a client only the error; otherwise the body's run with the bracket released; the store never changes |
| Bridge.QmlBridge.GetFaucetNym | qt-demo/bridge.go:527-567 | without a client only the error, with the bracket untouched; otherwise the body's run with the bracket released |
| Bridge.QmlBridge.RandomizeCredential | qt-demo/bridge.go:569-589 | the returned string, the new store and the emitted events are exactly those of the randomizeCredential run on the old store |

## Left out

- The Qt bindings (the `QObject`/`QVariant` machinery, moc tags, `SetProperty`, role-name maps, QML registration in the `init` functions) are not modelled. A property write becomes a field or array update, and the row notifications become the `rowChanges` log.
- A slot's `mainLayoutObject` is modelled as an array of `enabled` flags of any length. The Go code always passes a one-element list. A nil layout object is not modelled.
- Goroutines and concurrency are not modelled. Each goroutine body is one sequential method, run to completion or to the point where it blocks. The data race on the credential map that the Go code notes at qt-demo/bridge.go:431-433 is out of scope.
- The network and blockchain client is not modelled. Its results are parameters: balance queries give a value and an error flag, and submissions, waits, issuance and spending give success or error.
  - Balance queries are not logged on the trace.
  - The client's own behaviour (what `WaitForBalanceChange` waits for, how long it takes) is not modelled.
- Cryptography is opaque: coconut signatures, `RandomBIG`, `ForceReRandomizeCredential`, `MarshalBinary` and base64. They appear as values or parameters.
  - `token.New` is not part of this model. It is represented as succeeding exactly for the scheme's allowed values.
- Time and contexts are not modelled. The ticker becomes a finite sequence of `Tick` events, and the end of the wait's context becomes a `Cancel` event.
  - `SendParsedToPipeAccount`, `RedeemParsedTokens`: they accept any event sequence, including cancellations that `context.TODO()` never produces. The lemmas `SendToPipeAccountNeverTimesOut`, `SendToPipeAccountFinishesOnMatch`, `RedeemTokensNeverTimesOut` and `RedeemTokensFinishesOnMatch` state what happens on the tick-only sequences these workflows actually see.
  - A wait that never matches blocks forever in the Go code. In the model the events run out first, and the run is reported as not finished with the indicator busy.
- Notification texts are not modelled. `fmt.Sprintf` formatting and the error details become a `Reason` plus the title.
- Console output (`fmt.Println`, `fmt.Printf`) is not modelled.
- Most of the configuration and account code is not modelled: `loadConfig`, `generateNewKey`, `checkIfAccountExists`, `registerAccount`, key-file I/O, `client.New`, and `confirmConfig` apart from its value list.
  - The service-provider list, the account status and the long-term secret it publishes are also left out.
  - The bridge's configuration is given to its constructor.
- `ServerDisplayListModel.Data`, `CredentialListModel.Data`: they require an in-range row. The Go code's index-out-of-range panic for other rows (qt-demo/serverdisplaylistmodel.go:65, qt-demo/credentiallistmodel.go:67) is not modelled.
- The bridge's client is fixed at construction (`hasClient`). In the Go code `clientInstance` is set later by `confirmConfig` (qt-demo/bridge.go:242-249), and that assignment is not modelled.
- `credentialMap` is a package-level variable in the Go code (qt-demo/main.go:31, qt-demo/main.go:62). Here it is a field of the one bridge object, which is equivalent because the program creates a single bridge.
- `ethcommon.HexToAddress` is not modelled. The spend call receives the configured address string as it is.
- `IssuedCredential` is stored by value. The Go code stores a reference (`&IssuedCredential{...}`), which has the same effect here because nothing else holds that reference.
- `RandomizeCredential`: the panic of the Go code on a nil client, and on a nil re-randomized signature reaching `MarshalBinary`, is not modelled; both are represented by the response parameters.
- The model follows the code in four places where one might expect otherwise:
  - The wait compares the returned value even when its query failed.
  - `updateBalances` publishes all three values even after a query error.
  - `sendToPipeAccount` and `redeemTokens` wait for the ERC20 balance on `context.TODO()`, which never ends. They have no timeout: if no tick returns the target balance, they block forever with the busy indicator on.
  - `spendCredential` only reads the store, and marks the credential as spent whenever the spend call returned without error.
