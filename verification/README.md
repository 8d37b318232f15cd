# Web canvas painter: a verified model of its synchronisation core

`TCanvasPainter` is the server side of ROOT 7's web canvas. It keeps one
record per browser connection (viewer), a queue of commands waiting to run
on a viewer (image export, attaching a panel), the current snapshot of the
canvas with its version, and the list of `Canvas::Update()` callbacks that
wait for a version to be drawn. Three entry points drive it:

- `ProcessData(connid, arg)`, the text protocol viewers speak;
- `CanvasUpdated(ver, async, callback)`, a new canvas version;
- `DoWhenReady(name, arg, async, callback)`, a queued action.

Most of their paths end in a push pass, `CheckDataToSend`. The paths that
return without one are `QUIT` and a message from an unknown connection
(lines 459 and 486-489), the already-delivered and hidden-window returns of
`CanvasUpdated` (lines 355-360 and 365-369), and `JSON` and the missing batch
connection in `DoWhenReady` (lines 387-391 and 398-402). The pass sends each
viewer at most one message, in this order of priority:

1. the front command, when it may run there;
2. the requested menu;
3. the current snapshot.

After the loop the pass recomputes the delivered version. It then resolves
the waiting updates, or cancels them all once every viewer has gone.

The model has two layers:

- **A value layer.** It is made of the datatype `Records.Painter` (every
  field of the object, plus logs of what was sent, fired and called) and one
  pure function per operation (`Push.Pass`, `Protocol.ProcessData`,
  `Protocol.CanvasUpdated`, `Protocol.DoWhenReady`, `Protocol.AddPanel`,
  `Protocol.Close`). The properties are proved about these functions as
  lemmas.
- **An object layer.** It is the class `WebPainter.CanvasPainter`, which
  holds the same fields. Its methods assign them step by step. Each method is
  proved to reach exactly the state the matching function computes. The
  constructor, `ProcessData`, `CanvasUpdated`, `DoWhenReady` and `AddPanel`
  also keep the invariant `Invariants.Inv`. `Close`, the destructor, claims
  no invariant: it ends the object's life and leaves the connection records
  in place. The search and the two loops over pending updates run inside
  the class. The loop over the connections (`WebPainter.PushLoop`) and the
  loop over the queue (`WebPainter.CancelLoop`) are module-level methods.
  They work on copies of the fields, and the class assigns their results
  back once.

The external window is a parameter of the model:

- `World` gives the set of connections `CanSend` accepts during a pass and
  the drawables `FindDrawable` can find, with their menus.
- The snapshot JSON, `IsShown()`, `MakeBatch()`'s connection, `RelativeAddr`
  and the number `std::stoll` reads (`parse`) are also parameters.

Callbacks are opaque handles. Each invocation is logged as `Fired(handle, ok)`.

Where the comments and the code disagree, the model follows the code:

- **The delivered version is the maximum, not the minimum.**
  `fSnapshotDelivered` is documented as the "minimal version delivered to all
  connections" (line 110), and the loop variable is called `min_delivered`.
  Yet the test at line 272 keeps the LARGEST non-zero `fDelivered` of any
  connection. The model computes that maximum (`Versions.MaxDelivered`).
  `Versions.TwoViewersReportLargest` shows two viewers at versions 3 and 2,
  for which the painter reports 3.
- **A reply without a separator never reaches `separ + 1`.** A `REPLY:` body
  whose C string has no `:` leaves the id empty. It is turned away by the
  first check that fails: an empty queue (line 502), a front that is not
  running (line 504), or else the id comparison (line 506), because a
  running front's counter-issued id is never empty
  (`Invariants.NoSeparatorMismatch`). So line 509's `separ + 1` is never
  evaluated with a null `separ`. The model's `Commands.HandleReply` makes the
  missing separator a mismatch outright; on the invariant this is the same
  branch the code takes.

## Model

| member | source | states |
|---|---|---|
| Records.NewConn | gui/canvaspainter/v7/src/TCanvasPainter.cxx:49-57 | a new connection record starts not ready, with no menu request and versions sent and delivered both 0 |
| Records.CallBack | gui/canvaspainter/v7/src/TCanvasPainter.cxx:74-79 | a command's callback fires at most once, with the given result and only if it is set, and is cleared afterwards |
| Records.WireReadsBack | gui/canvaspainter/v7/src/TCanvasPainter.cxx:286-318 | a pushed message is its tag, then the command id and name, the menu target and its JSON, or the decimal version and the snapshot, split at the first `:` after the tag; the version reads back as the number sent |
| Records.Initial | gui/canvaspainter/v7/src/TCanvasPainter.cxx:142 | a new painter has no connections, no commands, no updates and every counter and version at 0 |
| Text.IndexOf | gui/canvaspainter/v7/src/TCanvasPainter.cxx:641 | `find` of a character: the first position holding it, or the length when it is absent |
| Text.DrawableId | gui/canvaspainter/v7/src/TCanvasPainter.cxx:638-647 | the id looked up is the prefix before the first `#`, the whole id when there is none |
| Text.SplitHead | gui/canvaspainter/v7/src/TCanvasPainter.cxx:655-662 | split at the first `:` exactly when there is one and the head is non-empty; head and tail re-join to the input |
| Text.SplitHeadJoin | gui/canvaspainter/v7/src/TCanvasPainter.cxx:518-522 | splitting `<head>:<tail>`, head non-empty and without `:`, gives back head and tail |
| Text.CString | gui/canvaspainter/v7/src/TCanvasPainter.cxx:497 | `c_str()` as C functions see it: the prefix before the first NUL |
| Text.SplitReply | gui/canvaspainter/v7/src/TCanvasPainter.cxx:497-501 | `strchr` split of a reply: defined exactly when the C string holds `:`; the id has no `:` and id, `:` and payload re-join to the C string |
| Text.SplitReplyJoin | gui/canvaspainter/v7/src/TCanvasPainter.cxx:497-509 | a reply `<id>:<payload>` without NUL, and with no `:` in the id, splits back into id and payload |
| Text.NatToString | gui/canvaspainter/v7/src/TCanvasPainter.cxx:404 | the decimal text of a counter value is non-empty and all digits |
| Text.NatToStringInjective | gui/canvaspainter/v7/src/TCanvasPainter.cxx:404 | distinct counter values give distinct ids |
| Versions.MaxDelivered | gui/canvaspainter/v7/src/TCanvasPainter.cxx:268-273 | the loop's `min_delivered` is at least every connection's delivered version, and is 0 or one of them: it is the maximum |
| Versions.MaxDeliveredSame | gui/canvaspainter/v7/src/TCanvasPainter.cxx:272-273 | the value depends on the delivered versions alone |
| Versions.MinDelivered | gui/canvaspainter/v7/src/TCanvasPainter.cxx:110 | the minimum the field's comment describes: the smallest non-zero delivered version, used only for comparison |
| Versions.MaxIsMinIffAgreed | gui/canvaspainter/v7/src/TCanvasPainter.cxx:110 | the maximum the code keeps equals the documented minimum exactly when all viewers that reported a version report the same one |
| Versions.TwoViewersReportLargest | gui/canvaspainter/v7/src/TCanvasPainter.cxx:272-273 | with viewers at versions 3 and 2 the code reports 3, where the documented minimum is 2 |
| Versions.Resolve | gui/canvaspainter/v7/src/TCanvasPainter.cxx:333-341 | the pending list is exactly the updates above the delivered version, in their order; the fired list is `true` for exactly the others, in their order, one per update |
| Versions.ResolveSelects | gui/canvaspainter/v7/src/TCanvasPainter.cxx:330-342 | exactly the updates above the delivered version stay; every other update fires `true`, and nothing fires `false`; stated as membership, beside `Versions.Resolve`'s exact lists |
| Versions.FailAll | gui/canvaspainter/v7/src/TCanvasPainter.cxx:235-240 | every pending update fires `false`, once each, in list order |
| Versions.CancelUpdates | gui/canvaspainter/v7/src/TCanvasPainter.cxx:232-241 | the delivered version drops to 0, the list empties, each update fails once, and nothing else changes |
| Versions.CheckDeliveredVersion | gui/canvaspainter/v7/src/TCanvasPainter.cxx:220-227 | -1 exactly when every viewer has gone after one existed; 1 exactly when that is not so and `ver` is delivered; 0 otherwise |
| Commands.SubmitKeepsQueue | gui/canvaspainter/v7/src/TCanvasPainter.cxx:404-405 | queueing keeps one command in flight and the queue unfinished; the counter grows by one; the new id is fresh and larger than every queued id |
| Commands.Cancel | gui/canvaspainter/v7/src/TCanvasPainter.cxx:253-255 | a cancelled command is ready, not running, and its callback is used up |
| Commands.CancelCmds | gui/canvaspainter/v7/src/TCanvasPainter.cxx:247-261 | each command is either kept or removed, and at most one callback fires per removed command |
| Commands.CancelSelects | gui/canvaspainter/v7/src/TCanvasPainter.cxx:249-260 | the commands kept are exactly those not selected (connid 0 selects all); each selected one is removed ready, not running and used up; every callback fired gets `false` |
| Commands.CancelAllEmpties | gui/canvaspainter/v7/src/TCanvasPainter.cxx:252 | with connid 0 every command is removed |
| Commands.CancelKeepsOrder | gui/canvaspainter/v7/src/TCanvasPainter.cxx:256-258 | the commands kept stay in their original order |
| Commands.CancelKeepsSingleFlight | gui/canvaspainter/v7/src/TCanvasPainter.cxx:249-260 | cancelling never puts a second command in flight, and the removed commands carry no success |
| Commands.SubsequenceKeepsIds | gui/canvaspainter/v7/src/TCanvasPainter.cxx:256 | dropping commands keeps the ids issued and increasing |
| Commands.ReplyResult | gui/canvaspainter/v7/src/TCanvasPainter.cxx:683-701 | success exactly for an image export that got content, or for `ADDPANEL:` answered `true` |
| Commands.ReplyEffects | gui/canvaspainter/v7/src/TCanvasPainter.cxx:685-700 | an image with content is written to the command's file, an empty image logs the failure, `ADDPANEL:` does nothing outside, any other name logs an unknown command; the file is written exactly when the image succeeds, and a diagnostic appears exactly when a non-panel command fails |
| Commands.Completed | gui/canvaspainter/v7/src/TCanvasPainter.cxx:681 | the replied command is ready, holds its result, and has its callback used up |
| Commands.FrontReplied | gui/canvaspainter/v7/src/TCanvasPainter.cxx:676-705 | the front leaves the queue and is retired completed; its callback fires with the result; the effect log gains exactly `ReplyEffects` of the front and the reply, and nothing else changes |
| Commands.ReplyValidation | gui/canvaspainter/v7/src/TCanvasPainter.cxx:494-510 | a reply is applied exactly when a command is queued, the front is running and the id matches; otherwise only a diagnostic is logged |
| Commands.ReplyForFrontAccepted | gui/canvaspainter/v7/src/TCanvasPainter.cxx:497-509 | `<front id>:<payload>` for the running front is accepted, and the payload reaches `FrontCommandReplied` |
| Commands.CommandWait | gui/canvaspainter/v7/src/TCanvasPainter.cxx:411-426 | positive exactly when ready with success; -1 exactly when ready with failure; 0 exactly while unfinished, connected and within 100 s |
| Commands.CancelledWaitFails | gui/canvaspainter/v7/src/TCanvasPainter.cxx:253-255 | a cancelled command ends its waiter's wait with -1 |
| Commands.RepliedWaitVerdict | gui/canvaspainter/v7/src/TCanvasPainter.cxx:413-415 | after an accepted reply the waiter sees 1 exactly when the reply made the command succeed |
| Push.Serve | gui/canvaspainter/v7/src/TCanvasPainter.cxx:276-323 | at most one message, to that connection only and only if it can send; only the front command can change, set running and bound there with its `CMD:`, and the connection's own record is then left as it was; otherwise a pending menu request is cleared with `fSend` kept and answered with `MENU:` exactly when the drawable is known; with no menu request the connection takes the current version and gets `SNAP:` exactly when it did not have it |
| Push.PushAll | gui/canvaspainter/v7/src/TCanvasPainter.cxx:270-324 | the loop keeps the number of connections and commands, only appends messages, and finds the maximum delivered version |
| Push.PushKeepsConns | gui/canvaspainter/v7/src/TCanvasPainter.cxx:270-324 | a record keeps its id, readiness and delivered version, may only get the current version or lose its menu request, and stays untouched when it cannot send |
| Push.PushFront | gui/canvaspainter/v7/src/TCanvasPainter.cxx:281-285 | only a front that was not running can change; it becomes running, bound to a listed connection that can send and that its binding allowed |
| Push.PushCmdCount | gui/canvaspainter/v7/src/TCanvasPainter.cxx:281-289 | a pass sends one `CMD:` when it dispatches the front, and none otherwise |
| Push.PushCmdMessage | gui/canvaspainter/v7/src/TCanvasPainter.cxx:286-289 | the `CMD:` message names the front command and goes to the connection it was bound to |
| Push.PushOnePerConn | gui/canvaspainter/v7/src/TCanvasPainter.cxx:270-324 | a connection gets at most one message per record, and none when it cannot send |
| Push.PushServes | gui/canvaspainter/v7/src/TCanvasPainter.cxx:270-324 | over the whole loop, every connection that can send took the front command with its record unchanged, or had its menu request cleared and, for a known drawable, got its `MENU:` in the pass's messages, or took the current version and got `SNAP:` in them when it lacked it |
| Push.ServeServedLast | gui/canvaspainter/v7/src/TCanvasPainter.cxx:281-318 | a connection served after the front was taken is answered by menu or snapshot, since a running front cannot be dispatched again |
| Push.Settle | gui/canvaspainter/v7/src/TCanvasPainter.cxx:326-342 | after the loop only the delivered version, the updates and the firing log may change |
| Push.PassFields | gui/canvaspainter/v7/src/TCanvasPainter.cxx:266-343 | connections, queue and outbox come from the loop; nothing else but the epilogue's fields changes |
| Push.PassDelivered | gui/canvaspainter/v7/src/TCanvasPainter.cxx:330-331 | after a pass the delivered version is the maximum over the connections, before and after the pass |
| Push.PassUpdates | gui/canvaspainter/v7/src/TCanvasPainter.cxx:326-342 | no connections left and something delivered: all updates fail and the version drops to 0; a new version: the pending list becomes exactly the uncovered updates in order, and exactly the covered ones fire `true`, in list order; otherwise nothing happens to them |
| Push.PassServes | gui/canvaspainter/v7/src/TCanvasPainter.cxx:266-343 | the pass as each viewer sees it: the front command with its record unchanged, or its menu, or the current snapshot when it lacked that version, each in the pass's own messages |
| Push.PassCommands | gui/canvaspainter/v7/src/TCanvasPainter.cxx:266-343 | only the front can change; one command stays in flight; the outbox only grows; one `CMD:` at most; one message per connection record |
| Protocol.DecodeEncode | gui/canvaspainter/v7/src/TCanvasPainter.cxx:437-533 | every well-formed message is classified back as itself |
| Protocol.EncodeDecode | gui/canvaspainter/v7/src/TCanvasPainter.cxx:437-533 | the classification loses no text, and what it yields is well formed |
| Protocol.FindConn | gui/canvaspainter/v7/src/TCanvasPainter.cxx:448-456 | the first record with the id, or the length when none has it |
| Protocol.SaveCreatedFile | gui/canvaspainter/v7/src/TCanvasPainter.cxx:653-671 | `<file>:<data>` with a non-empty name writes the file; anything else only logs the missing separator |
| Protocol.ExecObject | gui/canvaspainter/v7/src/TCanvasPainter.cxx:515-530 | a body `<id>:<instr>` with a non-empty id runs `instr` on the drawable the id names, exactly when that drawable exists and `instr` is non-empty; in every other case nothing changes |
| Protocol.ExecObjectJoin | gui/canvaspainter/v7/src/TCanvasPainter.cxx:518-526 | the instruction sent as `OBJEXEC:<id>:<instr>`, id free of `:`, reaches the drawable the id names exactly as sent; an unknown drawable or empty instruction changes nothing |
| Protocol.UnknownConnectionIgnored | gui/canvaspainter/v7/src/TCanvasPainter.cxx:458-459 | a message from an unknown connection changes nothing |
| Protocol.QuitOnlyTerminates | gui/canvaspainter/v7/src/TCanvasPainter.cxx:486-489 | `QUIT` from a known connection only calls the manager's terminate, with no push pass |
| Protocol.ReloadResendsLater | gui/canvaspainter/v7/src/TCanvasPainter.cxx:490-491 | the snapshot `RELOAD` asks for is not lost: it goes out in the closing pass or, if that pass sends the front command instead, in the next pass that can send to the viewer |
| Push.SnapshotOwed | gui/canvaspainter/v7/src/TCanvasPainter.cxx:281-318 | a viewer that can send, has no menu request and lacks the current version gets `SNAP:` in the pass, or takes the front command with its record unchanged; with no dispatchable front it always gets `SNAP:` |
| Protocol.ReloadPass | gui/canvaspainter/v7/src/TCanvasPainter.cxx:490-491 | `RELOAD` from a known connection is exactly its `fSend` reset to 0 followed by a pass |
| Protocol.ReloadResends | gui/canvaspainter/v7/src/TCanvasPainter.cxx:490-491 | after `RELOAD` from a connection that can send and has no menu request, the current snapshot is sent to it again in the closing pass, unless that pass gives it the front command, in which case its record still owes the snapshot (`fSend` is 0) |
| Protocol.ClosedConnectionReleased | gui/canvaspainter/v7/src/TCanvasPainter.cxx:464-472 | after `CONN_CLOSED` the record is gone, and no queued command is bound to it, even after the pass |
| Protocol.ClosedCancels | gui/canvaspainter/v7/src/TCanvasPainter.cxx:468-471 | closing removes the one record for the id and cancels every command bound to it |
| Protocol.PassKeepsUnbound | gui/canvaspainter/v7/src/TCanvasPainter.cxx:281-285 | a pass binds no command to a connection without a record |
| Protocol.TakeSnapshot | gui/canvaspainter/v7/src/TCanvasPainter.cxx:362-363 | the version and snapshot become current, and a pending dump name is written once and cleared |
| Protocol.AddPanel | gui/canvaspainter/v7/src/TCanvasPainter.cxx:575-604 | succeeds exactly with a shown window and a non-empty address; a refusal only logs a diagnostic |
| Protocol.CloseEmpties | gui/canvaspainter/v7/src/TCanvasPainter.cxx:208-211 | the destructor leaves no command, no update and nothing delivered; every command is retired ready and used up |
| Protocol.CloseFailsEverything | gui/canvaspainter/v7/src/TCanvasPainter.cxx:208-211 | every callback the destructor fires gets `false`, after those fired before |
| Invariants.InitialInv | gui/canvaspainter/v7/src/TCanvasPainter.cxx:142 | a new painter satisfies the invariant |
| Invariants.PassKeepsQueue | gui/canvaspainter/v7/src/TCanvasPainter.cxx:281-289 | a pass keeps one command in flight, the ids issued and nothing retired |
| Invariants.PassInv | gui/canvaspainter/v7/src/TCanvasPainter.cxx:266-343 | a pass restores the invariant: the delivered version is in step with the connections and no pending update is covered |
| Invariants.NoSeparatorMismatch | gui/canvaspainter/v7/src/TCanvasPainter.cxx:497-509 | on the invariant a reply without `:` to a running front meets a non-empty id, so only the mismatch is logged and line 509 is not reached |
| Invariants.ReplyKeepsQueue | gui/canvaspainter/v7/src/TCanvasPainter.cxx:494-510 | handling a reply keeps the queue invariant, the updates and the delivered version |
| Invariants.CancelKeepsQueue | gui/canvaspainter/v7/src/TCanvasPainter.cxx:247-261 | cancelling keeps the queue invariant and touches no update or connection |
| Invariants.ProcessDataInv | gui/canvaspainter/v7/src/TCanvasPainter.cxx:435-536 | whatever a viewer sends, the invariant holds afterwards |
| Versions.IsCanvasModified | gui/canvaspainter/v7/src/TCanvasPainter.cxx:155 | the query compares the id with the delivered version; what that means in terms of the viewers is stated by `Invariants.CanvasModifiedAgainstViewers` |
| Invariants.CanvasModifiedAgainstViewers | gui/canvaspainter/v7/src/TCanvasPainter.cxx:155 | after any pass, and at every moment on the invariant, the canvas is modified for an id exactly when that id is not the largest version a viewer has confirmed |
| Invariants.PassKeepsDelivered | gui/canvaspainter/v7/src/TCanvasPainter.cxx:330 | on the invariant a pass does not change the delivered version |
| Invariants.CanvasUpdatedInv | gui/canvaspainter/v7/src/TCanvasPainter.cxx:349-379 | a canvas update keeps the invariant |
| Invariants.FastPathDelivered | gui/canvaspainter/v7/src/TCanvasPainter.cxx:355-360 | the fast path answers `true` only for a version the wait predicate already reports delivered |
| Invariants.CanvasUpdatedQueues | gui/canvaspainter/v7/src/TCanvasPainter.cxx:362-378 | a shown update gets the new snapshot and queues its callback behind the earlier ones; nothing fires, and the wait is not yet satisfied |
| Invariants.DoWhenReadyInv | gui/canvaspainter/v7/src/TCanvasPainter.cxx:384-407 | a queued action keeps the invariant |
| Invariants.DoWhenReadyQueues | gui/canvaspainter/v7/src/TCanvasPainter.cxx:396-407 | the action is appended under the next counter id, different from every queued id, with its name, argument and callback, bound to the batch connection |
| Invariants.PassKeepsCommand | gui/canvaspainter/v7/src/TCanvasPainter.cxx:281-285 | a pass keeps every command's id, request and callback, and any existing binding |
| Invariants.AddPanelInv | gui/canvaspainter/v7/src/TCanvasPainter.cxx:575-604 | attaching a panel keeps the invariant |
| Callbacks.CancelArmed | gui/canvaspainter/v7/src/TCanvasPainter.cxx:252-256 | the callbacks a cancellation fires are exactly those its removed commands held |
| Callbacks.ResolveArmed | gui/canvaspainter/v7/src/TCanvasPainter.cxx:337-340 | the callbacks a resolution fires are exactly those its resolved updates held |
| Callbacks.FailAllArmed | gui/canvaspainter/v7/src/TCanvasPainter.cxx:235-240 | cancelling the updates fires each held callback once |
| Callbacks.PassCmdsArmed | gui/canvaspainter/v7/src/TCanvasPainter.cxx:281-289 | a pass leaves every command's callback in place |
| Callbacks.PassUpdatesArmed | gui/canvaspainter/v7/src/TCanvasPainter.cxx:326-342 | what a pass fires is exactly what the updates it removes held |
| Callbacks.PassConserves | gui/canvaspainter/v7/src/TCanvasPainter.cxx:266-343 | a pass fires only callbacks that were held, each once, and drops none |
| Callbacks.CancelCommandsConserves | gui/canvaspainter/v7/src/TCanvasPainter.cxx:247-261 | cancelling moves each selected callback from held to fired |
| Callbacks.HandleReplyConserves | gui/canvaspainter/v7/src/TCanvasPainter.cxx:676-705 | a reply fires at most the front command's callback, and nothing else |
| Callbacks.ConservesTrans | gui/canvaspainter/v7/src/TCanvasPainter.cxx:435-536 | conservation composes over steps in a row |
| Callbacks.HandleConserves | gui/canvaspainter/v7/src/TCanvasPainter.cxx:464-533 | handling a message fires only held callbacks, each once |
| Callbacks.ProcessDataConserves | gui/canvaspainter/v7/src/TCanvasPainter.cxx:435-536 | `ProcessData` hands in no callback, and fires only held ones, each once |
| Callbacks.CanvasUpdatedConserves | gui/canvaspainter/v7/src/TCanvasPainter.cxx:355-374 | the update's callback fires on the spot or is stored once, never both |
| Callbacks.StoreConserves | gui/canvaspainter/v7/src/TCanvasPainter.cxx:373-374 | storing the callback with a pending update hands it in and fires nothing |
| Callbacks.DoWhenReadyConserves | gui/canvaspainter/v7/src/TCanvasPainter.cxx:387-405 | the action's callback fails on the spot or is queued once; for `JSON` it is dropped and never called |
| Callbacks.CloseConserves | gui/canvaspainter/v7/src/TCanvasPainter.cxx:208-211 | the destructor fires every held callback once and leaves none held |
| Callbacks.AtMostOnce | gui/canvaspainter/v7/src/TCanvasPainter.cxx:74-79 | over any conserving run a callback fires at most as often as it was held or handed in: once per hand-in |
| WebPainter.ServeConnection | gui/canvaspainter/v7/src/TCanvasPainter.cxx:276-323 | serving one connection yields exactly what `Push.Serve` specifies |
| WebPainter.PushLoop | gui/canvaspainter/v7/src/TCanvasPainter.cxx:268-324 | the loop over the connections computes `Push.PushAll`: records, queue, outbox and delivered maximum |
| WebPainter.CancelLoop | gui/canvaspainter/v7/src/TCanvasPainter.cxx:249-260 | the loop over the queue computes `Commands.CancelCmds` |
| WebPainter.CanvasPainter.constructor | gui/canvaspainter/v7/src/TCanvasPainter.cxx:142 | a new object is the initial painter and satisfies the invariant |
| WebPainter.CanvasPainter.FindConnection | gui/canvaspainter/v7/src/TCanvasPainter.cxx:448-456 | the search finds the first record with the id, or reports that there is none |
| WebPainter.CanvasPainter.CancelUpdates | gui/canvaspainter/v7/src/TCanvasPainter.cxx:232-241 | the object reaches `Versions.CancelUpdates` of its old state |
| WebPainter.CanvasPainter.CancelCommands | gui/canvaspainter/v7/src/TCanvasPainter.cxx:247-261 | the object reaches `Commands.CancelCommands` of its old state |
| WebPainter.CanvasPainter.ResolveUpdates | gui/canvaspainter/v7/src/TCanvasPainter.cxx:333-341 | the updates become `Versions.Resolve`'s pending list, and what it fires is logged |
| WebPainter.CanvasPainter.CheckDataToSend | gui/canvaspainter/v7/src/TCanvasPainter.cxx:266-343 | the object reaches `Push.Pass` of its old state |
| WebPainter.CanvasPainter.FrontCommandReplied | gui/canvaspainter/v7/src/TCanvasPainter.cxx:676-705 | the object reaches `Commands.FrontReplied` of its old state |
| WebPainter.CanvasPainter.SaveCreatedFile | gui/canvaspainter/v7/src/TCanvasPainter.cxx:653-671 | the object reaches `Protocol.SaveCreatedFile` of its old state |
| WebPainter.CanvasPainter.HandleReplyMessage | gui/canvaspainter/v7/src/TCanvasPainter.cxx:494-510 | the object reaches `Commands.HandleReply` of its old state |
| WebPainter.CanvasPainter.ExecObjectMessage | gui/canvaspainter/v7/src/TCanvasPainter.cxx:515-530 | the object reaches `Protocol.ExecObject` of its old state |
| WebPainter.CanvasPainter.ConnectionClosed | gui/canvaspainter/v7/src/TCanvasPainter.cxx:464-472 | the record goes, then the connection's commands are cancelled |
| WebPainter.CanvasPainter.HandleMessage | gui/canvaspainter/v7/src/TCanvasPainter.cxx:464-533 | the object reaches `Protocol.Handle` of its old state |
| WebPainter.CanvasPainter.ProcessData | gui/canvaspainter/v7/src/TCanvasPainter.cxx:435-536 | the object reaches `Protocol.ProcessData` of its old state and keeps the invariant |
| WebPainter.CanvasPainter.TakeSnapshot | gui/canvaspainter/v7/src/TCanvasPainter.cxx:362-363 | the object reaches `Protocol.TakeSnapshot` of its old state |
| WebPainter.CanvasPainter.CanvasUpdated | gui/canvaspainter/v7/src/TCanvasPainter.cxx:349-379 | the object reaches `Protocol.CanvasUpdated` of its old state and keeps the invariant |
| WebPainter.CanvasPainter.Enqueue | gui/canvaspainter/v7/src/TCanvasPainter.cxx:404-405 | the queue and counter become `Commands.Submit`'s |
| WebPainter.CanvasPainter.DoWhenReady | gui/canvaspainter/v7/src/TCanvasPainter.cxx:384-407 | the object reaches `Protocol.DoWhenReady` of its old state and keeps the invariant |
| WebPainter.CanvasPainter.AddPanel | gui/canvaspainter/v7/src/TCanvasPainter.cxx:575-604 | object and result are `Protocol.AddPanel`'s, and the invariant is kept |
| WebPainter.CanvasPainter.Close | gui/canvaspainter/v7/src/TCanvasPainter.cxx:208-211 | the object reaches `Protocol.Close` of its old state |
| Push.Pass | gui/canvaspainter/v7/src/TCanvasPainter.cxx:266-343 | the push pass, the connection loop followed by the update settlement; it only appends to the messages already sent; what else it does is stated by `Push.PassFields`, `Push.PassServes`, `Push.PassCommands`, `Push.PassUpdates`, `Push.PassDelivered` and `Invariants.PassInv` |
| Protocol.ProcessData | gui/canvaspainter/v7/src/TCanvasPainter.cxx:435-536 | one inbound message followed by a pass; it only appends to the messages already sent; the rest is stated by `Invariants.ProcessDataInv`, `Callbacks.ProcessDataConserves`, `Protocol.UnknownConnectionIgnored`, `Protocol.QuitOnlyTerminates`, `Protocol.ReloadResends` and `Protocol.ClosedConnectionReleased` |
| Protocol.Handle | gui/canvaspainter/v7/src/TCanvasPainter.cxx:464-533 | the per-message branch before the pass; it sends nothing itself; the rest is stated by `Invariants.HandleKeepsQueue`, `Callbacks.HandleConserves` and `Protocol.ClosedCancels` |
| Protocol.Decode | gui/canvaspainter/v7/src/TCanvasPainter.cxx:437-531 | the message classifier, tests in source order; stated by `Protocol.DecodeEncode` and `Protocol.EncodeDecode` |
| Protocol.CanvasUpdated | gui/canvaspainter/v7/src/TCanvasPainter.cxx:349-379 | a new snapshot with its callback; stated by `Invariants.CanvasUpdatedInv`, `Invariants.CanvasUpdatedQueues`, `Invariants.FastPathDelivered` and `Callbacks.CanvasUpdatedConserves` |
| Protocol.DoWhenReady | gui/canvaspainter/v7/src/TCanvasPainter.cxx:384-430 | queueing a command for the viewers; stated by `Invariants.DoWhenReadyInv`, `Invariants.DoWhenReadyQueues` and `Callbacks.DoWhenReadyConserves` |
| Protocol.Close | gui/canvaspainter/v7/src/TCanvasPainter.cxx:208-214 | closing the window; stated by `Protocol.CloseEmpties`, `Protocol.CloseFailsEverything` and `Callbacks.CloseConserves` |
| Commands.HandleReply | gui/canvaspainter/v7/src/TCanvasPainter.cxx:494-510 | a viewer's reply to the front command; stated by `Commands.ReplyValidation`, `Commands.FrontReplied` and `Invariants.NoSeparatorMismatch` |
| Commands.Submit | gui/canvaspainter/v7/src/TCanvasPainter.cxx:404-405 | appending a command under a fresh counter id; stated by `Commands.SubmitKeepsQueue` |
| Commands.CancelCommands | gui/canvaspainter/v7/src/TCanvasPainter.cxx:247-261 | cancelling the selected commands; stated by `Commands.CancelSelects`, `Invariants.CancelKeepsQueue` and `Callbacks.CancelCommandsConserves` |
| Records.Wire | gui/canvaspainter/v7/src/TCanvasPainter.cxx:286-318 | the text of a pushed message, beginning with its tag; its full layout is stated by `Records.WireReadsBack` |

## Left out

- The window (`TWebWindow`) is outside the model. `CanSend` is taken as one set for a whole pass, even though a send could change it mid-pass. `Sync`, `Show`, `CloseConnections` (line 213), `SetConnLimit`, `SetDefaultPage` and `SetDataCallBack` are not modelled.
- `CreateWindow` (lines 538-547), `NewDisplay` (lines 554-559), `NumDisplays` (lines 564-569) and `Run` (lines 711-718) only configure or drive the window, and are not modelled.
- Blocking waits (`WaitFor`, lines 377-378 and 411-426) and the `async` flag are left out. The waits are modelled only as their predicates, `Versions.CheckDeliveredVersion` and `Commands.CommandWait`. The clock is the parameter `tm`.
- Painting is left out: `PaintDrawables`, the JSON `CreateSnapshot` produces, and `PopulateMenu`/`ProduceJSON`. The snapshot text and each drawable's menu JSON are parameters.
- Base64 decoding and writing files (lines 664-668 and 689-692) are recorded as effects that carry the file name and the encoded data. Their content and I/O are not modelled.
- `std::stoll` on the `SNAPDONE:` version is the parameter `parse`. It ignores the exception `stoll` throws on text that is not a number, and the wrap-around of the `uint64_t` cast.
- Versions and the command counter are unbounded naturals. 64-bit wrap-around of `fCmdsCnt` is not modelled.
- The log's debug and info messages are left out. Error messages are recorded as diagnostics.
- The loops of `CheckDataToSend` and `CancelCommands` run on copies of the connection list and the queue, not on the fields themselves. So the model does not capture the `conn` reference the push loop writes through, or the queue's erase-while-iterating: each loop's result replaces the field once it is complete.
- The generator registration (lines 169-200) and the `RVirtualCanvasPainter` interface are not modelled.
- Callbacks are opaque handles, so what a callback does when it is invoked (possibly re-entering the painter) is not modelled.
- The other files of the repository (histograms, TMVA, trees) are not part of this model.
- Commands.CancelCmds: the function's own contract states only the counts. The selection it performs is stated by the lemma `Commands.CancelSelects`.
