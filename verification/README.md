# Blood bank frontend — a verified model of its client-side logic

This project models the decision logic of the blood-bank management
frontend (a React single-page app): the delivery hand-off between a
dispatching hospital, a courier's phone and the receiving hospital, the
inter-hospital request board, the payment and dispensing forms, the pricing
rules, the stock views, the donation-camp pipeline, laboratory screening and
component separation, and the development server's choice of LAN address.

Each React component with `useState` slots becomes a Dafny `class` whose
fields are those slots; every event handler is a `method` whose `ensures`
ties the new state to a pure transition function, and the properties the
screens promise are proved about those functions as `ensures` clauses and
lemmas. Server answers, clocks and device positions are parameters. Pure
helpers (pricing, filters, look-ups) are functions. The LAN-address helper
loops and is a method proved against a specification function.

Modules:

- `Wrappers`, `Text`, `Seqs` — an `Option` type, ASCII string helpers
  (`includes`, `toLowerCase`, `slice(-n)`, digit stripping) and an
  order-preserving subsequence relation.
- `Pricing` — `calculateEstimatedPrice` of src/utils/pricing.js.
- `DispatchTracking` — the delivery-details modal: the one-hour unlock gate,
  its countdown, the panel choice, the receiver-only OTP card and the
  location subscription.
- `CourierHandoff` — the courier's page: OTP verification and location relay,
  with the `isDelivered` value the geolocation callback closed over.
- `RequestApproval` — the request board: recipient test, action panels,
  approval and rejection calls.
- `RequestForm` — the "Request Blood" form with its self-updating estimate.
- `Payment` — the receiver's payment form.
- `Dispense` — issuing blood to a patient, with its own billing formula.
- `InventoryFilter`, `InventoryQuery` — the stock list and the query cleaner.
- `StockDashboard` — per-group counts, stock labels and the total.
- `CampPipeline` — the camp console's donor pipeline and progress bar.
- `TtiScreening`, `ComponentSeparation` — the two laboratory forms.
- `LocalAddress` — `getLocalIP` of vite.config.js.

## Model

| member | source | states |
|---|---|---|
| Pricing.RarityTenths | src/utils/pricing.js:6-12 | the rarity multiplier in tenths is exactly ten times the switch's factor, and it is 10 exactly for groups outside O-, AB-, B-, A- |
| Pricing.TypeTenths | src/utils/pricing.js:15-16 | the component factor in tenths is ten times 1.2 for Plasma, 1.5 for Platelets, 1 otherwise |
| Pricing.UnitPrice | src/utils/pricing.js:2-16 | one unit costs exactly 1200 × rarity × component factor, which is always a whole number from a fixed set of ten prices |
| Pricing.CalculateEstimatedPrice | src/utils/pricing.js:1-19 | the estimate equals the exact real product 1200 × multiplier × quantity (so rounding never alters it), and zero units cost nothing |
| Pricing.PriceMonotoneInQuantity | src/utils/pricing.js:18 | ordering more units never lowers the estimate |
| Pricing.RareGroupNeverCheaper | src/utils/pricing.js:6-12 | for the same component and quantity, a rare Rh-negative group is never cheaper than a common group |
| DispatchTracking.UnlockTime | src/components/common/DispatchDetailsModal.jsx:52 | tracking unlocks exactly sixty minutes before the estimated arrival |
| DispatchTracking.ReadGate | src/components/common/DispatchDetailsModal.jsx:53-60 | the gate is live exactly when the clock has reached the unlock instant; a countdown shows 0-23 hours and 0-59 minutes |
| DispatchTracking.UnlockIsPermanent | src/components/common/DispatchDetailsModal.jsx:53-55 | once live, the gate stays live at every later time |
| DispatchTracking.CountdownIsMinutesLeft | src/components/common/DispatchDetailsModal.jsx:56-59 | within the last day, the countdown shows exactly the whole minutes left until unlock |
| DispatchTracking.CountdownNeverIncreases | src/components/common/DispatchDetailsModal.jsx:56-59 | within the last day, the displayed countdown never goes up as time passes |
| DispatchTracking.CountdownDropsWholeDays | src/components/common/DispatchDetailsModal.jsx:57 | whole days are dropped from the countdown: arrivals a day apart show the same reading |
| DispatchTracking.RequesterIdString | src/components/common/DispatchDetailsModal.jsx:40-42 | the requester id is the string itself, or the populated object's `_id`; it is missing exactly for an absent requester or an object without `_id` |
| DispatchTracking.IsReceiver | src/components/common/DispatchDetailsModal.jsx:40-43 | the viewer is the receiver exactly when the requester is their id or an object carrying it; two missing ids compare equal |
| DispatchTracking.SelectPanel | src/components/common/DispatchDetailsModal.jsx:104-134 | exactly one of the four map panels is chosen, each under its own condition: completed, locked, live map with a location, waiting |
| DispatchTracking.ShowsOtpCard | src/components/common/DispatchDetailsModal.jsx:150-191 | the OTP card is never shown on a completed order, and for a known viewer it is shown exactly to the receiver of an open order |
| DispatchTracking.CopyOtp | src/components/common/DispatchDetailsModal.jsx:82-95 | a code is copied exactly when it exists and is non-empty, and the copied text is that code |
| DispatchTracking.DispatchDetailsView.constructor | src/components/common/DispatchDetailsModal.jsx:34-37 | the modal opens locked, without a label, a location or a visible code |
| DispatchTracking.DispatchDetailsView.CheckTimer | src/components/common/DispatchDetailsModal.jsx:44-61 | a completed order (status "completed") or one without an arrival leaves the state alone; otherwise the lock and the label follow the gate reading |
| DispatchTracking.DispatchDetailsView.SyncSubscription | src/components/common/DispatchDetailsModal.jsx:69-74 | the location topic is joined, under the order's id, exactly when unlocked |
| DispatchTracking.DispatchDetailsView.OnUpdateLocation | src/components/common/DispatchDetailsModal.jsx:71 | a relayed position replaces the shown one only while listening |
| DispatchTracking.DispatchDetailsView.ToggleOtp | src/components/common/DispatchDetailsModal.jsx:152 | tapping the card flips whether the code is visible |
| DispatchTracking.IdleTimerStaysLocked | src/components/common/DispatchDetailsModal.jsx:48-50 | a completed order or one without an arrival stays locked whatever the clock says, showing the completed or locked panel |
| DispatchTracking.JoinAfterTick | src/components/common/DispatchDetailsModal.jsx:49-74 | after a timer tick, the order's topic is joined exactly when the clock has reached the unlock instant |
| CourierHandoff.StartVerify | src/pages/deliveryPhone/DriverTrack.jsx:54-57 | a code of other than four characters changes nothing; a four-character one starts loading and keeps the code and the delivery flag |
| CourierHandoff.FinishVerify | src/pages/deliveryPhone/DriverTrack.jsx:58-68 | with no request pending nothing changes; otherwise loading ends, an accepted code delivers, a rejected one clears the field; delivery is never undone |
| CourierHandoff.VerifyRoundTrip | src/pages/deliveryPhone/DriverTrack.jsx:54-69 | a verify with nothing typed in between delivers on acceptance, clears the field on rejection, and is a no-op for a code of the wrong length |
| CourierHandoff.ConfirmEnabled | src/pages/deliveryPhone/DriverTrack.jsx:186 | the confirm button is enabled exactly when not loading with four characters typed, and then pressing it starts a verify |
| CourierHandoff.ShortId | src/pages/deliveryPhone/DriverTrack.jsx:142 | the displayed id is the upper-cased last six characters of the order id, or all of a shorter one |
| CourierHandoff.DeliveredIsFinal | src/pages/deliveryPhone/DriverTrack.jsx:14 | no sequence of events on the page turns a delivered session back into an undelivered one |
| CourierHandoff.RunAppend | src/pages/deliveryPhone/DriverTrack.jsx:12-16 | running two event sequences one after the other equals running their concatenation |
| CourierHandoff.StoppedWatchIsFinal | src/pages/deliveryPhone/DriverTrack.jsx:41-52 | once the installed watch closed over a delivered page, every later watch does too and the order stays delivered |
| CourierHandoff.NoLocationAfterDelivery | src/pages/deliveryPhone/DriverTrack.jsx:41-52 | after an accepted code and the effect re-run that replaces the watch, no later position fix is relayed |
| CourierHandoff.FixBeforeRerunIsRelayed | src/pages/deliveryPhone/DriverTrack.jsx:41-61 | between the accepted answer and the effect re-run the old watch still reads `isDelivered` false, so a fix is relayed; after the re-run it is not |
| CourierHandoff.PressWhilePendingIgnored | src/pages/deliveryPhone/DriverTrack.jsx:186 | while a verify is pending the button is disabled and a press changes nothing |
| CourierHandoff.RejectClearsLateTyping | src/pages/deliveryPhone/DriverTrack.jsx:54-69 | a code typed while the verify is in flight is cleared by a rejection, and loading ends |
| CourierHandoff.DriverTrackPage.constructor | src/pages/deliveryPhone/DriverTrack.jsx:12-52 | the page opens "Connecting..." with an empty code, neither loading nor delivered, its first watch closed over the undelivered page |
| CourierHandoff.DriverTrackPage.OnEffectRerun | src/pages/deliveryPhone/DriverTrack.jsx:40-52 | the commit after `isDelivered` changes clears the old watch and installs one over the current value |
| CourierHandoff.DriverTrackPage.SetOtp | src/pages/deliveryPhone/DriverTrack.jsx:167 | typing stores the value as the code |
| CourierHandoff.DriverTrackPage.HandleVerify | src/pages/deliveryPhone/DriverTrack.jsx:54-61 | up to the `await`: the code is sent only when four characters long, and the page then loads |
| CourierHandoff.DriverTrackPage.OnVerifyAnswer | src/pages/deliveryPhone/DriverTrack.jsx:62-68 | after the answer: the state is the finish transition of the state at that moment |
| CourierHandoff.DriverTrackPage.OnPosition | src/pages/deliveryPhone/DriverTrack.jsx:41-46 | a position is relayed with the order id, and the status set to live, exactly when the installed watch closed over an undelivered page |
| CourierHandoff.DriverTrackPage.OnPositionError | src/pages/deliveryPhone/DriverTrack.jsx:48 | a position error shows "Waiting for GPS..." |
| CourierHandoff.CorrectCodeScenario | src/pages/deliveryPhone/DriverTrack.jsx:41-69 | a correct four-character code is sent and delivers the order; a fix before the re-render is still relayed, one after the effect re-runs is not |
| CourierHandoff.WrongCodeScenario | src/pages/deliveryPhone/DriverTrack.jsx:41-69 | a wrong code clears the input, leaves the order undelivered and the next position is still relayed |
| CourierHandoff.PendingVerifyScenario | src/pages/deliveryPhone/DriverTrack.jsx:41-69 | while the verify is in flight the button is disabled and positions are relayed; a code typed meanwhile is cleared by a rejection |
| RequestApproval.AmIRecipient | src/pages/requests/RequestList.jsx:65-69 | a loaded user is the recipient exactly when the organization is their id or an object carrying it |
| RequestApproval.ShowsRequestButton | src/pages/requests/RequestList.jsx:86 | the request button is hidden exactly for admins |
| RequestApproval.StatusQuery | src/pages/requests/RequestList.jsx:39 | the "All" tab asks for every status, any other tab for its own |
| RequestApproval.ActionPanels | src/pages/requests/RequestList.jsx:124-195 | each card shows exactly one action area: on a pending request the decision buttons exactly for a non-admin recipient, the waiting notice exactly for a non-admin sender, the monitoring badge exactly for an admin (role "admin"); a processed request shows only its status |
| RequestApproval.ShowsDeliveryInfo | src/pages/requests/RequestList.jsx:198 | the delivery box appears exactly on approved requests with delivery details |
| RequestApproval.HandleStatusUpdate | src/pages/requests/RequestList.jsx:52-62 | a status call (the `updateRequestStatus` body) is sent exactly when the user confirms, for that request and status, with null delivery details |
| RequestApproval.RequestListPage.constructor | src/pages/requests/RequestList.jsx:13-16 | the board opens on the "pending" tab with no request selected |
| RequestApproval.RequestListPage.SetFilter | src/pages/requests/RequestList.jsx:13 | choosing a tab stores it |
| RequestApproval.RequestListPage.InitiateApproval | src/pages/requests/RequestList.jsx:18-20 | "Approve" selects the request for the delivery form |
| RequestApproval.RequestListPage.FinalizeApproval | src/pages/requests/RequestList.jsx:21-30 | the selected request is approved with the delivery data; the form closes only on success; with nothing selected nothing is sent |
| RequestApproval.RequestListPage.CloseDeliveryForm | src/pages/requests/RequestList.jsx:16 | closing the form clears the selection |
| RequestForm.OtherHospitals | src/components/common/RequestModal.jsx:49 | the recipient list is every hospital but the user's own, in the order received, each as many times as it was received |
| RequestForm.HandleChange | src/components/common/RequestModal.jsx:61-63 | an edit sets the named field and leaves every other field as it was |
| RequestForm.OtherEditsKeepEstimate | src/components/common/RequestModal.jsx:24-27 | edits to fields outside the price effect's dependencies leave the estimate unchanged |
| RequestForm.MoreUnitsNeverCheaper | src/components/common/RequestModal.jsx:24-27 | raising the quantity never lowers the estimate |
| RequestForm.HandleSubmit | src/components/common/RequestModal.jsx:65-78 | no recipient means no request; with a user, the request carries the form, the shown price and the user's name or else hospital name |
| RequestForm.PressSubmit | src/components/common/RequestModal.jsx:108-160 | the browser stops a form with no recipient, no patient name or a quantity below one; otherwise `handleSubmit` decides, so its own recipient refusal is never reached |
| RequestForm.RequestModal.constructor | src/components/common/RequestModal.jsx:13-27 | the form opens with its defaults, not loading, and the estimate already computed for them |
| RequestForm.RequestModal.Init | src/components/common/RequestModal.jsx:29-59 | with a user, it is kept and the list excludes the user's own hospital; without one nothing changes |
| RequestForm.RequestModal.OnChange | src/components/common/RequestModal.jsx:24-27 | a priced field's edit resets the price to the estimate; other edits keep a hand-edited price |
| RequestForm.RequestModal.SetPrice | src/components/common/RequestModal.jsx:176 | the price can be overwritten by hand |
| RequestForm.SendLabel | src/components/common/RequestModal.jsx:182-184 | the button reads "Sending..." exactly while loading, "Send Request" otherwise |
| RequestForm.RequestModal.Submit | src/components/common/RequestModal.jsx:65-78 | while a request is pending the disabled button does nothing; otherwise a press is the browser's check followed by `handleSubmit`, and only a request actually sent leaves the form loading |
| RequestForm.RequestModal.OnSubmitSettled | src/components/common/RequestModal.jsx:79-86 | once the server has answered, loading ends |
| RequestForm.PendingRequestScenario | src/components/common/RequestModal.jsx:65-184 | a filled-in form sends the request with the user's name and the estimate; while pending the button reads "Sending..." and a second press sends nothing; afterwards it is enabled again |
| RequestForm.OpenAndSubmit | src/components/common/RequestModal.jsx:108-136 | a freshly opened form is stopped by the browser: no recipient is chosen and no patient named yet |
| Payment.TxnChange | src/components/common/paymentModal.jsx:17-22 | the field takes the input's digits when there are at most twelve, and otherwise keeps its value |
| Payment.TxnChangeKeepsValid | src/components/common/paymentModal.jsx:17-22 | the field always holds at most twelve digits and nothing else |
| Payment.TxnChangeAcceptsDigits | src/components/common/paymentModal.jsx:17-22 | a digit-only input of at most twelve digits is stored unchanged |
| Payment.DecideSubmit | src/components/common/paymentModal.jsx:24-48 | an online payment is blocked exactly when the id is not twelve digits; otherwise the call carries request, method and id |
| Payment.SubmitDisabled | src/components/common/paymentModal.jsx:110 | the button is disabled exactly while loading or for an online payment without twelve digits, and an enabled button submits |
| Payment.PaymentModal.constructor | src/components/common/paymentModal.jsx:9-11 | the form opens on online payment with an empty id |
| Payment.PaymentModal.SetMethod | src/components/common/paymentModal.jsx:9 | choosing a method stores it and keeps the field valid |
| Payment.PaymentModal.HandleTxnChange | src/components/common/paymentModal.jsx:17-22 | the field follows the sanitiser and stays valid |
| Payment.PaymentModal.HandleSubmit | src/components/common/paymentModal.jsx:24-37 | up to the `await`: a blocked submission changes nothing; otherwise loading starts and the call carries request, method and id |
| Payment.PaymentModal.OnSubmitSettled | src/components/common/paymentModal.jsx:45-47 | loading ends whether the call succeeded or failed |
| Payment.CashOnDeliveryScenario | src/components/common/paymentModal.jsx:24-48 | cash on delivery is submitted with an empty field, the button is disabled while the call is pending and enabled again after |
| Payment.EmptyOnlineScenario | src/components/common/paymentModal.jsx:24-28 | a fresh online payment with no id is blocked, sends nothing, and its button is disabled |
| Dispense.UnitCharge | src/pages/PatientManager.jsx:172-174 | one unit costs exactly 1200, 1700 for a group containing "-", 2000 for platelets, 2500 for both |
| Dispense.DispensePrice | src/pages/PatientManager.jsx:170-179 | a donated issue is free; a sold one costs the unit charge times the quantity |
| Dispense.NegativeNeverCheaper | src/pages/PatientManager.jsx:173 | a group containing "-" costs exactly 500 more per unit than one without |
| Dispense.TxnInput | src/pages/PatientManager.jsx:282-288 | the transaction field accepts a value exactly when it is at most twelve digits |
| Dispense.Proceed | src/pages/PatientManager.jsx:182-194 | a donation submits at once; a sale without a UPI id is refused; a sale with one moves to payment |
| Dispense.VerifyDisabled | src/pages/PatientManager.jsx:310 | the issue button is disabled exactly while loading or with fewer than ten digits |
| Dispense.VerifyLabel | src/pages/PatientManager.jsx:313 | the button reads "Verifying..." exactly while loading, "Verify & Issue Blood" otherwise |
| Dispense.DispenseModal.constructor | src/pages/PatientManager.jsx:157-179 | the form opens on step one for the patient, with the patient's group, one unit of whole blood sold, not loading, and the price of the formula |
| Dispense.DispenseModal.SetBilling | src/pages/PatientManager.jsx:170-179 | changing a billing input recomputes the price with the formula |
| Dispense.DispenseModal.SetUpiId | src/pages/PatientManager.jsx:157-167 | the UPI id is stored and the form stays valid |
| Dispense.DispenseModal.HandleTxnInput | src/pages/PatientManager.jsx:282-288 | the transaction field follows the input rule and stays valid |
| Dispense.DispenseModal.HandleProceed | src/pages/PatientManager.jsx:182-194 | the form moves to step two exactly when the proceed rule says payment; a donation starts `finalSubmit` at once, loading and sending the whole form; otherwise nothing is sent |
| Dispense.DonationScenario | src/pages/PatientManager.jsx:182-200 | a donation sends the free unit at once from step one and the form is loading while the call is pending |
| Dispense.DispenseModal.Back | src/pages/PatientManager.jsx:307 | "Back" returns to step one |
| Dispense.DispenseModal.FinalSubmit | src/pages/PatientManager.jsx:197-200 | up to the `await`: loading starts and the call carries the patient id and the whole form |
| Dispense.DispenseModal.OnDispenseFailed | src/pages/PatientManager.jsx:204-207 | a failed call ends loading and leaves the form open and valid |
| Dispense.SaleScenario | src/pages/PatientManager.jsx:182-313 | a sale with a UPI id reaches the QR step; with ten digits the call sends the sold unit at the formula price; the button reads "Verifying..." and is disabled while pending, and is enabled after a failure |
| InventoryFilter.FilteredItems | src/pages/inventory/Inventory.jsx:44-67 | an item is listed exactly when it passes the tab, type and search filters, as often as it occurs, and the list keeps the original order |
| InventoryFilter.ListedItemsObeyFilters | src/pages/inventory/Inventory.jsx:44-67 | every listed item obeys each filter that is set |
| InventoryFilter.NoSearchKeepsTab | src/pages/inventory/Inventory.jsx:44-67 | with no search and the "All" type, every item of the tab is listed |
| InventoryFilter.AvailableCount | src/pages/inventory/Inventory.jsx:117 | the stock count is at most the number of items, zero exactly when none is available, and one item counts one exactly when available |
| InventoryFilter.AvailableCountAppend | src/pages/inventory/Inventory.jsx:117 | the count of two lists joined is the sum of their counts; with the one-item case this makes it the number of available items |
| InventoryFilter.AvailableCountAtMostActive | src/pages/inventory/Inventory.jsx:44-117 | the stock count never exceeds the length of the active tab's list with no other filter |
| InventoryFilter.VolumeMl | src/pages/inventory/Inventory.jsx:152 | each unit is shown as 450 ml |
| InventoryFilter.DisplayId | src/pages/inventory/Inventory.jsx:149 | the bag id is shown if set, else the unit id, else "N/A" |
| InventoryQuery.FalsyButKept | src/services/inventory.service.js:11 | zero, false and non-empty strings are kept; undefined, null and the empty string are dropped |
| InventoryQuery.CleanFilters | src/services/inventory.service.js:10-12 | an entry is kept exactly when its value is neither null, undefined nor empty, in the original order |
| InventoryQuery.CleanFiltersIdempotent | src/services/inventory.service.js:10-12 | cleaning twice is cleaning once |
| InventoryQuery.GetInventoryQuery | src/services/inventory.service.js:7-12 | with no filters the query is empty; otherwise it holds exactly the kept entries |
| StockDashboard.EightDistinctGroups | src/pages/dashboard/Dashboard.jsx:21 | eight distinct blood groups are displayed |
| StockDashboard.GetGroupCount | src/pages/dashboard/Dashboard.jsx:48-51 | a group's count is the units of its first entry in the stats, or 0 when it has none |
| StockDashboard.GetStockStatus | src/pages/dashboard/Dashboard.jsx:54-58 | below 5 units is critical, 5 to 14 low, 15 or more good |
| StockDashboard.StockStatusMonotone | src/pages/dashboard/Dashboard.jsx:54-58 | more units never earn a more severe label |
| StockDashboard.TotalUnits | src/pages/dashboard/Dashboard.jsx:61 | the total of no stats is 0, of one entry its units, of non-negative counts non-negative; with `TotalUnitsAppend` this fixes it as the sum over all entries |
| StockDashboard.TotalUnitsAppend | src/pages/dashboard/Dashboard.jsx:61 | the total of two lists concatenated is the sum of their totals |
| StockDashboard.GroupCountAtMostTotal | src/pages/dashboard/Dashboard.jsx:48-61 | with non-negative counts, no group's count exceeds the total |
| CampPipeline.CollectedCount | src/pages/CampManager.jsx:47 | the collected count is at most the number of donors, equal exactly when all have donated, and one donor counts one exactly when they donated |
| CampPipeline.CollectedCountAppend | src/pages/CampManager.jsx:187 | the count of two lists joined is the sum of their counts; with the one-donor case this makes it the number of donors who donated |
| CampPipeline.OfferedActions | src/pages/CampManager.jsx:242-257 | Pass and Reject are offered exactly to registered donors, Collect exactly to fit ones, nothing to donors who gave |
| CampPipeline.ActionsMoveForward | src/pages/CampManager.jsx:242-251 | every offered action moves a donor strictly forward in the pipeline |
| CampPipeline.HandleStatus | src/pages/CampManager.jsx:164-177 | collecting without a blood group is refused; anything else sends the donor's new status |
| CampPipeline.PressOutcome | src/pages/CampManager.jsx:244-249 | screening buttons are never refused; Collect is refused exactly for a donor without a group |
| CampPipeline.ProgressWidth | src/pages/CampManager.jsx:48-73 | the bar never exceeds 100%, is not a number exactly for 0 of 0, and is the collected share of a positive target otherwise |
| CampPipeline.LiveCampConsole.constructor | src/pages/CampManager.jsx:142 | the console starts from the camp's donors |
| CampPipeline.LiveCampConsole.RefreshData | src/pages/CampManager.jsx:145-152 | the donors of the first camp with this id replace the list; without such a camp the list is kept |
| TtiScreening.Toggle | src/components/common/TTIModal.jsx:47 | a click flips exactly the clicked marker |
| TtiScreening.ToggleTwice | src/components/common/TTIModal.jsx:47 | two clicks on a marker restore the results |
| TtiScreening.IsUnsafe | src/components/common/TTIModal.jsx:18 | a unit is unsafe exactly when some marker is positive |
| TtiScreening.InitialIsSafe | src/components/common/TTIModal.jsx:9-15 | a fresh form marks the unit safe |
| TtiScreening.PositiveMarkerDiscards | src/components/common/TTIModal.jsx:18-47 | switching any marker to positive makes the unit unsafe |
| TtiScreening.ShowsDiscardNotice | src/components/common/TTIModal.jsx:86 | the discard notice is shown exactly when some marker is positive, never on a fresh form |
| TtiScreening.ButtonLabel | src/components/common/TTIModal.jsx:111 | the button reads "Saving..." while loading, else "Confirm Discard" exactly for an unsafe unit and "Mark as Safe" exactly for a safe one |
| TtiScreening.SubmitOutcome | src/components/common/TTIModal.jsx:20-41 | a failed call reports failure; a successful one reports discard exactly for an unsafe unit and safe exactly for a safe one |
| TtiScreening.TtiForm.constructor | src/components/common/TTIModal.jsx:8-15 | the form opens with every marker negative |
| TtiScreening.TtiForm.ToggleRow | src/components/common/TTIModal.jsx:47 | a click applies the toggle |
| TtiScreening.TtiForm.HandleSubmit | src/components/common/TTIModal.jsx:20-26 | up to the `await`: loading starts and the call carries the unit and all five flags |
| TtiScreening.TtiForm.OnSubmitSettled | src/components/common/TTIModal.jsx:28-40 | the report follows the flags that were sent, and loading ends whatever the answer |
| TtiScreening.PositiveHivScenario | src/components/common/TTIModal.jsx:18-111 | a positive HIV marker asks to confirm the discard, reads "Saving..." while pending, and reports the unit discarded |
| ComponentSeparation.Selected | src/components/common/ComponentModal.jsx:17 | the selection holds exactly the checked components, each once, as a subsequence of the key order |
| ComponentSeparation.SetChecked | src/components/common/ComponentModal.jsx:76 | a checkbox change sets its own component and no other |
| ComponentSeparation.DefaultSelection | src/components/common/ComponentModal.jsx:9-13 | by default red cells and plasma are selected |
| ComponentSeparation.HandleProcess | src/components/common/ComponentModal.jsx:15-31 | processing is refused exactly when nothing is checked; otherwise the call lists exactly the checked components and reports their number |
| ComponentSeparation.ComponentForm.constructor | src/components/common/ComponentModal.jsx:8-13 | the form opens on the defaults, not loading |
| ComponentSeparation.ComponentForm.OnCheckboxChange | src/components/common/ComponentModal.jsx:76 | a checkbox change applies to its own component |
| ComponentSeparation.ComponentForm.Decision | src/components/common/ComponentModal.jsx:15-29 | the button refuses exactly when all three boxes are clear, and otherwise sends the selection |
| ComponentSeparation.ProcessLabel | src/components/common/ComponentModal.jsx:96-102 | the button reads "Processing..." exactly while loading, "Confirm & Split Bag" otherwise |
| ComponentSeparation.ComponentForm.Press | src/components/common/ComponentModal.jsx:15-29 | while a call is pending the disabled button does nothing; otherwise the press makes the decision, and only a call actually sent leaves the form loading |
| ComponentSeparation.ComponentForm.OnProcessSettled | src/components/common/ComponentModal.jsx:31-38 | once the server has answered, loading ends |
| ComponentSeparation.SplitScenario | src/components/common/ComponentModal.jsx:8-102 | the defaults send red cells and plasma; while pending the button reads "Processing..." and a second press sends nothing; with every box cleared a press is refused and nothing is pending |
| LocalAddress.PickFirstWifi | vite.config.js:22-25 | when a Wi-Fi candidate exists, the first one is picked |
| LocalAddress.PickLastWithoutWifi | vite.config.js:27-28 | without a Wi-Fi candidate, the last candidate is picked, or the starting value when there is none |
| LocalAddress.AdapterCandsSound | vite.config.js:18-20 | every candidate of an adapter is one of its external IPv4 addresses |
| LocalAddress.AdapterCandsComplete | vite.config.js:18-20 | every external IPv4 address of an adapter is a candidate |
| LocalAddress.CandsSound | vite.config.js:10-16 | every candidate comes from an adapter that is not skipped |
| LocalAddress.CandsComplete | vite.config.js:10-20 | every external IPv4 address of an adapter that is not skipped is a candidate |
| LocalAddress.ChosenIsExternalAddress | vite.config.js:6-33 | the chosen address is "localhost" or an external IPv4 address of an adapter that is not skipped |
| LocalAddress.WifiPreferred | vite.config.js:22-25 | when a Wi-Fi adapter that is not skipped has an external IPv4 address, a Wi-Fi address is chosen |
| LocalAddress.NoCandidateMeansLocalhost | vite.config.js:8-32 | with no external IPv4 address outside skipped adapters, "localhost" is chosen |
| LocalAddress.ScanAdapter | vite.config.js:18-30 | scanning one adapter then the rest gives the same answer as scanning both at once, and stops early only on a Wi-Fi adapter |
| LocalAddress.GetLocalIP | vite.config.js:6-33 | the loops return exactly the chosen address |

## Left out

- Network and devices: socket.io channels, HTTP calls through axios, the
  geolocation provider, the clipboard, `localStorage`, toasts, `alert` and
  `window.confirm` are not modelled as such; their results (server success
  or failure, a confirmation, a position fix, the current time) are
  parameters.
- Timers: the one-second `setInterval` of the delivery modal is modelled by
  calling `CheckTimer` with the current time at each tick; its cleanup and
  restart when the request changes are not modelled.
- Asynchronous handlers are split at their `await` into a method that
  starts the call and one that applies the answer; interleavings of two
  pending calls of the same handler are not modelled. The success branches
  that call `onSuccess()` and `onClose()` end the model's interest in a
  modal; closing it is not modelled.
- CampPipeline.LiveCampConsole.constructor and RefreshData: a camp's donor
  list is always present. The `camp.donors || []` fallback and a refreshed
  camp without `donors` (which leaves the list undefined) are not modelled.
- The live-map panel renders `<Recenter>`, but
  src/components/common/DispatchDetailsModal.jsx:27 only defines
  `RecenterAutomatically`, so rendering that panel (line 125) fails; the
  model states only when the panel is chosen, not that it renders.
- The delivery box of the request board uses the `Truck` icon
  (src/pages/requests/RequestList.jsx:201), which that file does not import
  (line 2), so rendering it fails; `ShowsDeliveryInfo` states only when the
  box is chosen.
- Rendering: layout, colours, icons, Leaflet maps and routing are left out;
  only the decisions that choose what is shown are modelled.
- Pricing.CalculateEstimatedPrice: IEEE double arithmetic and `Math.round`
  are replaced by exact arithmetic; the result is an exact integer, so
  rounding would not change it.
- Quantities and the hand-edited estimated price are integers. The forms
  store the `<input>` text (`setPrice(e.target.value)` for the price) and
  JavaScript coerces it when multiplying or sending; an empty or
  non-numeric text (giving 0, NaN or a string price) is not modelled.
- Text.ToLower and Text.ToUpper map ASCII letters only; other Unicode case
  mappings of `toLowerCase` and `toUpperCase` are not modelled.
- DispatchTracking.ReadGate: timestamps are integer milliseconds; an invalid
  arrival date (NaN in the source) and the "Hh Mm" string formatting are not
  modelled, the label is kept as hours and minutes.
- DispatchTracking.IsReceiver: a `null` requester id, which makes the source
  read `_id` of `null` and throw, is not modelled.
- CampPipeline.ProgressWidth: the bar width is an exact rational instead of
  a double, and a missing target (NaN) is not modelled.
- Dispense.DispenseModal.OnDispenseFailed: the success path of
  `finalSubmit` (the toast, `onSuccess` and closing the modal) is not
  modelled; the modal's state ends there.
- CourierHandoff: the "GPS Not Supported" branch, the fetch of public order
  details and the re-join of the tracking topic on every effect run are not
  modelled.
- The HTML `maxLength` attribute of the OTP input is enforced by the
  browser, not by the page's code, and is not modelled. The request form's
  `required` and `min` constraints are modelled by `RequestForm.PressSubmit`;
  the other forms' browser validation is not.
- The payment call goes to `submitPayment`, which request.service.js does
  not export; the model records the call's fields only.
- Walk-in donor registration, camp scheduling, patient admission and the
  other service wrappers only forward form data to the server and are not
  modelled.
- The request form's recipient list, the user and the hospitals are loaded
  once; the failure toast of that load is not modelled.
- InventoryQuery.GetInventoryQuery: URL encoding by `URLSearchParams` is not
  modelled; the result is the list of kept entries. A `null` argument (the
  default covers only `undefined`) makes the source throw and is not
  modelled.
- Two price formulas exist in the source: `calculateEstimatedPrice` for
  inter-hospital requests (multipliers by rarity and component) and the
  dispense formula of PatientManager.jsx (fixed surcharges); both are
  modelled as written, in `Pricing` and `Dispense`.
