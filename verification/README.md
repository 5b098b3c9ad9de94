# Verified model of the DLS2 core protocols and numerics

This project models the parts of the DLS2 robot-control framework whose correctness is hardest to see by
reading the code, and proves what they promise over all inputs, all interleavings and all runs.

| file | what it models |
|---|---|
| `ShutdownSignal.dfy` | the lock-free hand-over of a process signal from any number of handlers to a worker thread, and its tear-down |
| `ShutdownDelivery.dfy` | what its parts do: a handled signal reaches the callback, a stopped worker and the owner finish |
| `Options.dfy` | a value that may be missing |
| `StateMachine.dfy` | the generic event-driven state machine, as a class over an abstract value |
| `AppLifecycle.dfy` | the application's transition table, and its life cycle: one activity per state, requests from other threads at any moment, a monitor that must approve termination |
| `LifecycleResults.dfy` | what the life cycle promises over all runs |
| `LifecycleActivities.dfy` | what each activity decides: which request wins, and what the callbacks' answers lead to in every run |
| `StaleRequests.dfy` | requests that outlive the state they were raised for: exactly when, and what a stale stop-activation request does to the next activation |
| `EventWait.dfy` | waiting for asynchronous events on a condition variable whose mutex the raisers never take |
| `LifecycleSplit.dfy` | the same life cycle without the assumption that raising an event and changing state are atomic: what survives, what does not, and exactly when |
| `SplitLiveness.dfy` | that a quit request is still honoured there |
| `ControlLayer.dfy`, `ControlLayerResults.dfy` | loading, unloading and closing under four mutexes by any number of threads |
| `ControlLayerOperations.dfy` | what each of those operations does by itself and in every run, and that it ends |
| `ControlMerge.dfy` | the loop that merges all controllers' signals into one command, on an array in place |
| `Rotations.dfy`, `QuaternionProduct.dfy`, `RotationRoundTrip.dfy` | quaternion, matrix and roll-pitch-yaw conversions |
| `MovingWindow.dfy` | the circular moving window with running sums and cached extrema |
| `Scheduler.dfy` | the phase-preserving periodic scheduler |
| `OwnedProcess.dfy` | the interrupt, terminate, kill escalation over owned child processes |
| `EventNotifier.dfy` | the notifier that suppresses repeated events |
| `CommandCodec.dfy` | the argument list of a remote command on the wire |

Concurrent code is a state and a step function: one step is one atomic access of one thread, every choice that
the operating system, a clock or a callback makes is part of the step, and the theorems quantify over all step
sequences. Code that works step by step on one object is a class whose methods are proved against functions on
the object's abstract value; what the code promises is then proved about those functions over whole histories.

## Findings

* `raiseEvent` looks its row up outside the mutex and a transition lowers its flag before it stores the state.
  Safety survives every interleaving (`LifecycleSplit.RacesAreSafe`), and so does the way to QUIT
  (`SplitLiveness.QuitWithinFourTransitions`), but a request looked up in IDLE and stored after the machine has
  reached QUIT makes the quit handshake hang for ever (`LifecycleSplit.HandshakeCanHang`).
  `LifecycleSplit.HandshakeCompletesIff` says exactly when it completes. If the two operations exclude each other,
  the atomic model's invariant is back whenever none is in progress (`LifecycleSplit.ExclusionSuffices`) and the
  handshake always completes (`LifecycleSplit.ExclusiveHandshakeCompletes`).
* `raiseEvent` notifies the condition variable without its mutex, so a wake-up can be lost (`EventWait.WaitCanHang`);
  `EventWait.HangsIffNotifiedTooEarly` says exactly when, and `EventWait.GuardedNeverHangs` that storing the flag
  under the mutex is enough.
* A comment in `modules/state_machine/src/state_machine.cpp:95-96` says the machine does not remember events of
  past states. It does: a request stays pending until its own transition is made (`StaleRequests.RememberedIff`),
  and a pending one is useless in the current state exactly in QUIT, or if it is `stop_activation` outside
  ACTIVATION (`StaleRequests.StaleIff`, `StaleRequests.TransitionLeavesStaleIff`). Both happen
  (`StaleRequests.ActivationRequestOutlivesIdle`, `StaleRequests.StopActivationOutlivesActivation`). A flag
  pending in QUIT is never acted on (`LifecycleResults.QuitIsFinal`), but a stop request that loses against a
  successful check aborts the next activation in every run (`StaleRequests.LostStopAbortsNextActivation`);
  `StaleRequests.ActivationAbortedIff` says exactly which activations are aborted.
* The merge loop sends the previous cycle's position, velocity and gains again when only torque controllers are
  loaded (`ControlMerge.TorquesForgetThePast`), and ignores torque controllers behind a first controller whose
  mode byte is not a mode (`ControlMerge.AllTorqueControllersCountIff`).
* The command codec returns the arguments exactly when none contains a comma (`CommandCodec.RoundTripIff`).

## Model

| member | source | states |
|---|---|---|
| ShutdownSignal.NoWriteAfterClose | modules/utils/include/dls2/util/shutdown_signal.hpp:51-59 | in every interleaving of any number of handlers with the destructor, no handler writes to a closed pipe; the counter is the number of handlers in flight, and a handler that loads the descriptor after it was withdrawn gets an invalid one |
| ShutdownSignal.NoReadAfterClose | modules/utils/include/dls2/util/shutdown_signal.hpp:65-75 | the worker only ever reads from an open pipe and never runs after it was joined |
| ShutdownSignal.SignalConserved | modules/utils/include/dls2/util/shutdown_signal.hpp:84-97 | a signal was delivered iff a byte is in the pipe, or the worker holds it as pending, or the callback has returned true; and the callback never runs without a signal |
| ShutdownSignal.CallbackStopsOnceAccepted | modules/utils/include/dls2/util/shutdown_signal.hpp:68-74 | the callback returns true at most once, as its last result, and the worker has left then |
| ShutdownSignal.NoFurtherCalls | modules/utils/include/dls2/util/shutdown_signal.hpp:51-76 | after the callback has accepted, or the worker was joined, no continuation of the run calls it again |
| ShutdownSignal.WaitIsBounded | modules/utils/include/dls2/util/shutdown_signal.hpp:99-105 | once the release has begun the handlers together take a bounded number of steps, whatever happens in between |
| ShutdownSignal.WaitEndsWhenDrained | modules/utils/include/dls2/util/shutdown_signal.hpp:99-105 | the wait for the counter ends exactly when no handler is in flight, no new one can arrive, and each one in flight can move |
| ShutdownSignal.SignalReachesCallback | modules/utils/include/dls2/util/shutdown_signal.hpp:62-76 | after a signal, seven steps of the running worker include a return of the callback, whatever the handlers do meanwhile |
| ShutdownSignal.StepKeepsInv | modules/utils/include/dls2/util/shutdown_signal.hpp:21-105 | every step of the constructor, the destructor, the worker or a handler keeps the protocol's invariant: exact counter, pipe ownership, no signal lost or invented, callback discipline |
| ShutdownDelivery.WriteDelivers | modules/utils/include/dls2/util/shutdown_signal.hpp:84-97 | a handler's write through a valid descriptor delivers: it adds one byte or finds the pipe full, and an interrupted one changes nothing |
| ShutdownDelivery.HandledSignalIsDelivered | modules/utils/include/dls2/util/shutdown_signal.hpp:84-97 | in every run, a handler that arrives while the descriptor is published and is through before it is withdrawn has delivered its signal |
| ShutdownDelivery.LiveReceivesSignals | modules/utils/include/dls2/util/shutdown_signal.hpp:21-49 | once constructed, the object has its descriptor published and receives every signal |
| ShutdownDelivery.ArrivedSignalReachesCallback | modules/utils/include/dls2/util/shutdown_signal.hpp:62-97 | from a signal's arrival, in every run: once its handler is through, seven steps of the started worker include a return of the callback, and it has accepted or is going to be called again |
| ShutdownDelivery.StoppedWorkerExits | modules/utils/include/dls2/util/shutdown_signal.hpp:51-76 | once the stop flag is set five worker steps end the worker, with at most the callback under way, and the destructor's join returns |
| ShutdownDelivery.OwnerFinishes | modules/utils/include/dls2/util/shutdown_signal.hpp:21-59 | in every run construction and destruction together take at most thirteen steps of the owner |
| ShutdownDelivery.SecondObjectGivesUp | modules/utils/include/dls2/util/shutdown_signal.hpp:25-30 | a second object gives up while another one's descriptor is published, closes its own pipe and touches nothing else |
| StateMachines.StateMachine.constructor | modules/state_machine/src/state_machine.cpp:48-72 | initialisation sets both current and desired state, keeps the table and leaves every asynchronous flag lowered |
| StateMachines.StateMachine.RaiseEvent | modules/state_machine/src/state_machine.cpp:93-114 | refines the abstract raise: a usable event is remembered with its successor as the desired state, an unusable one is refused |
| StateMachines.StateMachine.IsRaised | modules/state_machine/src/state_machine.cpp:121-124 | reads the flag; the entry the lookup may insert changes nothing abstractly |
| StateMachines.StateMachine.NextState | modules/state_machine/src/state_machine.cpp:126-147 | refines the abstract transition, including the null entry that looking up a missing row leaves in the table |
| StateMachines.StateMachine.NextStateAsync | modules/state_machine/src/state_machine.cpp:149-173 | lowers the event's flag, then makes the transition |
| AppStateMachine.TableIsTarget | modules/application/src/state_machine/app_state_machine.cpp:20-36 | the literal table and the function used in the proofs agree on every row and on every missing row |
| LifecycleResults.PendingRequestsFitState | modules/state_machine/src/state_machine.cpp:93-173 | over all runs: an activation request is pending only in IDLE or QUIT, a deactivation request only in RUN, FAIL or QUIT, a quit request never in INITIALIZATION or QUIT; the desired state is the current one or the table successor by a pending request |
| LifecycleResults.EveryTransitionHasRow | modules/application/src/app.cpp:155-254 | every transition an activity asks for has a row and goes there, the table keeps its initial contents, and no state pointer is ever null |
| LifecycleResults.TransitionsOnlyOnRequest | modules/application/src/app.cpp:167-254 | a transition by a request always finds its flag raised; an activity that was woken never falls through; the failed-deactivation branch is never taken by a periodic application unless it was asked to quit |
| LifecycleActivities.ActivityDecides | modules/application/src/app.cpp:167-254 | started with requests pending, each activity makes the transition of the one that has precedence, whatever the callbacks say, and lowers that flag alone |
| LifecycleActivities.EnteredOnlyAfterYes | modules/application/src/app.cpp:185-241 | in every run RUN is entered only if the last activation check said yes, FAIL only if the last body of RUN failed, IDLE from DEACTIVATION only if its last step was the final one |
| LifecycleActivities.YesReachesGoal | modules/application/src/periodic_app.cpp:141-198 | in every run a positive answer is obeyed: RUN within three statements of the main thread, FAIL within five, IDLE within three unless a quit request is found |
| LifecycleResults.StopsOnlyAfterPublishing | modules/application/src/app.cpp:256-273 | the machine has stopped, or is about to, only after the monitor published a status with current and desired state both "quit" |
| LifecycleActivities.PublishesWhatItRead | modules/application/src/app.cpp:296-352 | in every run each published pair is the current and the desired state as the machine held them when the monitor last read each, once per pass |
| LifecycleResults.QuitWithinThreeTransitions | modules/application/src/app.cpp:167-254 | from any reachable point, mid-activity included, with a quit request pending and no new request recorded: at most three more transitions, never stuck, and in QUIT within 48 statements of the main thread |
| LifecycleResults.MainLowersRank | modules/application/src/periodic_app.cpp:141-198 | with a quit request pending, every statement of every activity lowers the rank that counts transitions and statements left until QUIT, whatever other flags are up |
| LifecycleResults.QuitIsFinal | modules/application/src/state_machine/app_state_machine.cpp:20-36 | no step changes current or desired state in QUIT, and every request is refused there |
| LifecycleResults.MonitorReleases | modules/application/src/app.cpp:296-352 | once QUIT has set should_quit, eight monitor steps, which contain a full pass, release the main thread, and the monitor is never stuck |
| StaleRequests.RememberedIff | modules/state_machine/src/state_machine.cpp:93-173 | over all runs: a request is pending iff it was accepted at some step and its own transition has not been made since, however many states have passed |
| StaleRequests.StaleIff | modules/state_machine/src/state_machine.cpp:93-114 | in every reachable state a pending request has no row iff the state is QUIT, or it is stop_activation outside ACTIVATION |
| StaleRequests.TransitionLeavesStaleIff | modules/state_machine/src/state_machine.cpp:149-173 | exactly which requests a transition leaves stale; stop_activation survives ACTIVATION iff another event ends it |
| StaleRequests.ActivationAbortedIff | modules/application/src/app.cpp:185-222 | from the start of an activation every continuation returns to IDLE without the check, within six statements, iff in the past a stop request was accepted and has not been honoured since |
| StaleRequests.LostStopAbortsNextActivation | modules/application/src/app.cpp:196-217 | with stop_activation pending outside ACTIVATION, in every run the next activation runs no check and is back in IDLE within six statements |
| StaleRequests.StopActivationOutlivesActivation | modules/application/src/app.cpp:207-218 | a concrete run that ends in RUN with stop_activation still pending |
| StaleRequests.ActivationRequestOutlivesIdle | modules/application/src/app.cpp:174-182 | a concrete run that ends in QUIT with activation_request still pending |
| AppLifecycle.StepKeepsInv | modules/application/src/app.cpp:155-352 | every step of the main thread, the monitor or a requester keeps the life-cycle invariant |
| EventWait.ReturnsOnlyWhenRaised | modules/state_machine/src/state_machine.cpp:187-198 | in every interleaving with any number of raisers the wait returns only with a wanted flag up |
| EventWait.HangsIffNotifiedTooEarly | modules/state_machine/src/state_machine.cpp:187-198 | a sleeping waiter that nobody is about to notify has a wanted flag up iff, in its last pass over the flags, some wanted flag was stored after it had been read and notified before the waiter fell asleep |
| EventWait.HungStaysHung | modules/state_machine/src/state_machine.cpp:187-198 | then only a new raise or a spurious wake-up can move it |
| EventWait.RaisedStartsPass | modules/state_machine/src/state_machine.cpp:187-198 | with a wanted flag up, beginning to wait, being notified or waking up starts a pass over the flags that will see it |
| EventWait.PassEndsWait | modules/state_machine/src/state_machine.cpp:187-198 | in every interleaving such a pass ends the wait after one read of each flag left, without sleeping |
| EventWait.WaitCanHang | modules/state_machine/src/state_machine.cpp:93-114 | a concrete run that ends there: the flag is stored and notified between the last test and going to sleep |
| EventWait.GuardedNeverHangs | modules/state_machine/src/state_machine.cpp:93-114 | if flags were stored under the waiter's mutex, no run would ever end there |
| LifecycleSplit.RacesAreSafe | modules/state_machine/src/state_machine.cpp:93-173 | with raises and transitions split into their single accesses, in every interleaving: the table is unchanged, every transition about to be stored has its row, nothing is null, only raised requests are consumed, and the machine stops only after "quit" was published |
| LifecycleSplit.ExclusionSuffices | modules/state_machine/src/state_machine.cpp:93-173 | if no raise overlaps a transition, the atomic model's whole invariant holds whenever none is in progress |
| LifecycleSplit.ExclusiveHandshakeCompletes | modules/application/src/app.cpp:256-352 | if no raise overlaps a transition up to the wait in QUIT, eight monitor steps release the main thread |
| SplitLiveness.QuitWithinFourTransitions | modules/application/src/app.cpp:167-254 | in every interleaving of the single accesses, stale flags and half-made transitions included: with a quit request pending and no further flag raised, at most four transitions, never stuck, in QUIT within 64 statements of the main thread |
| SplitLiveness.StepLowers | modules/state_machine/src/state_machine.cpp:93-173 | every statement of the main thread lowers the rank left until QUIT and no other thread raises it |
| LifecycleSplit.MoveIsAtomic | modules/state_machine/src/state_machine.cpp:149-173 | without overlap the two halves of a transition compose to exactly the atomic one |
| LifecycleSplit.RaiseIsAtomic | modules/state_machine/src/state_machine.cpp:93-114 | the three accesses of a raise, one after the other, compose to exactly the atomic one, accepted or refused |
| LifecycleSplit.HandshakeCompletesIff | modules/application/src/app.cpp:296-352 | without atomicity: waiting in QUIT with no raise in flight, the monitor releases the main thread iff the desired state is "quit" or it has already read it so; otherwise no continuation ever does |
| LifecycleSplit.HandshakeCanHang | modules/state_machine/src/state_machine.cpp:93-114 | such a state is reachable: a stale raise stored in QUIT hangs the application for ever |
| ControlLayerResults.StoppedAtMostOnce | modules/core_framework/src/control_layer.cpp.in:543-583 | in every interleaving of loads, unloads, closes and monitors no entry is handed to the stop routine twice |
| ControlLayerResults.MappedEntriesAreLive | modules/core_framework/src/control_layer.cpp.in:366-385 | an entry in a map is under one name only and is neither being stopped, nor stopped, nor let go, nor in any thread's hands; so the monitor never looks at an entry being stopped |
| ControlLayerResults.HeldEntriesAreExclusive | modules/core_framework/src/control_layer.cpp.in:585-611 | no two threads hold the same entry, and an entry in hand has been handed to the stop routine iff it is being stopped |
| ControlLayerResults.EveryEntryAccountedFor | modules/core_framework/src/control_layer.cpp.in:438-611 | every entry ever created is in a map, in a thread's hands, handed to the stop routine, or an external controller let go; only external ones are |
| ControlLayerResults.EmplaceInserts | modules/core_framework/src/control_layer.cpp.in:438-507 | a load that passed its check always inserts its entry, although it released the map mutex in between |
| ControlLayerResults.MapAccessIsExclusive | modules/core_framework/src/control_layer.cpp.in:438-611 | no two threads are ever about to access the same map |
| ControlLayerResults.MapsStayEmptyAfterClose | modules/core_framework/src/control_layer.cpp.in:372-385 | after close has swapped the maps out they stay empty and no entry is ever created again |
| ControlLayerResults.AfterCloseEverythingIsStopped | modules/core_framework/src/control_layer.cpp.in:372-385 | once no closing thread is still stopping, every entry ever created has been handed to the stop routine or was an external controller let go, and not both |
| ControlLayerResults.NeverDeadlocks | modules/core_framework/src/control_layer.cpp.in:372-729 | while any operation is in progress some thread can take a step of one, and one other than giving back a mutex in a scoped lock's retry unless two closing threads hold one operation mutex each |
| ControlLayerResults.OneCloserNeverSpins | modules/core_framework/src/control_layer.cpp.in:372-385 | with at most one thread in close's locks a step other than giving back a mutex is always possible |
| ControlLayerResults.CrossedWaitersOnlyDrop | modules/core_framework/src/control_layer.cpp.in:372-385 | the exception is exact: with the two operation mutexes crossed, whoever waits for one or is closing can only give one back |
| ControlLayerResults.StepKeepsInv | modules/core_framework/src/control_layer.cpp.in:372-729 | every step keeps mutual exclusion, the assignment of one place to each entry, name reservation, and emptiness after close |
| ControlLayerOperations.LoadReturns | modules/core_framework/src/control_layer.cpp.in:438-541 | in every run a load that has returned has mapped an entry created for it, of its kind, or the layer was closing, the name taken, or the process not launched |
| ControlLayerOperations.UnloadReturns | modules/core_framework/src/control_layer.cpp.in:585-611 | in every run an unload that has returned has removed the entry and handed it to the stop routine, or let an external one go; it changes nothing exactly if the name is absent or an external unload meets an entry with a process |
| ControlLayerOperations.CloseReturns | modules/core_framework/src/control_layer.cpp.in:372-385 | in every run a close that has returned swapped both maps out while closing and under all four mutexes, and has handed all that was in them to the stop routine |
| ControlLayerOperations.CloseStopsGeneratorsFirst | modules/core_framework/src/control_layer.cpp.in:383-384 | in every run no controller a close took is stopped before all the generators it took |
| ControlLayerOperations.LoadAlone | modules/core_framework/src/control_layer.cpp.in:438-541 | by itself a load of a free name on an open layer maps a new entry of its kind and changes nothing else |
| ControlLayerOperations.UnloadAlone | modules/core_framework/src/control_layer.cpp.in:585-597 | by itself an unload of a loaded name removes and stops its entry and changes nothing else |
| ControlLayerOperations.ExternalUnloadAlone | modules/core_framework/src/control_layer.cpp.in:599-611 | by itself an external unload of an external entry removes it without the stop routine |
| ControlLayerOperations.MonitorReturns | modules/core_framework/src/control_layer.cpp.in:366-370 | in every run a look at a map that has returned has read it with its mutex held |
| ControlLayerOperations.OperationsEnd | modules/core_framework/src/control_layer.cpp.in:372-729 | in every run an operation takes a bounded number of its thread's steps: eight in a load, six in an unload, and past its locks two for each entry a close took and two more |
| ControlLayer.StepKeepsLocks | modules/core_framework/src/control_layer.cpp.in:372-729 | every mutex is owned by exactly the thread whose program counter holds it |
| ControlMerge.Aggregator.Merge | modules/core_framework/src/control_layer.cpp.in:264-339 | the loop with its early exits computes the declarative command: first direct controller alone, else weighted sum with the first impedance controller's position, velocity and gains |
| ControlMerge.Aggregator.AddTorques | modules/core_framework/src/control_layer.cpp.in:334-337 | adds premultiplier times torque in place at each of the controller's joints, and nothing at the others |
| ControlMerge.Aggregator.TakePosition | modules/core_framework/src/control_layer.cpp.in:299-309 | the command becomes the controller's positions with zeros elsewhere |
| ControlMerge.Aggregator.TakeVelocity | modules/core_framework/src/control_layer.cpp.in:311-321 | the command becomes the controller's velocities with zeros elsewhere |
| ControlMerge.Aggregator.constructor | modules/core_framework/src/control_layer.cpp.in:69-73 | all vectors start with one zero per joint |
| ControlMerge.DirectWinsAlone | modules/core_framework/src/control_layer.cpp.in:299-321 | with equal vector lengths the first position or velocity controller determines the whole command, whatever the others and the previous cycle say |
| ControlMerge.TorquesForgetThePast | modules/core_framework/src/control_layer.cpp.in:264-339 | torques and mode never depend on the previous cycle; position, velocity and gains do exactly when no impedance and no direct controller is loaded |
| ControlMerge.TorquesAreTheSum | modules/core_framework/src/control_layer.cpp.in:324-338 | with valid modes and no direct controller the torques are those of all torque controllers plus the first impedance controller's |
| ControlMerge.TorqueControllerAdds | modules/core_framework/src/control_layer.cpp.in:324-338 | one more torque controller adds exactly its premultiplier times its torque at each joint |
| ControlMerge.ImpedanceControllerAdds | modules/core_framework/src/control_layer.cpp.in:324-338 | one more impedance controller adds its weighted torques iff it is the first |
| ControlMerge.SingleController | modules/core_framework/src/control_layer.cpp.in:264-339 | no controller gives zero torque, a single one its weighted torques |
| ControlMerge.ImpedanceSupplies | modules/core_framework/src/control_layer.cpp.in:324-333 | without a direct controller, mode, position, velocity and both gains are the first impedance controller's; without one the previous cycle's, in the first controller's mode |
| ControlMerge.ReorderingKeepsCommand | modules/core_framework/src/control_layer.cpp.in:280-339 | permuting the controllers leaves the whole command unchanged as long as the first impedance controller stays the same |
| ControlMerge.AllTorqueControllersCountIff | modules/core_framework/src/control_layer.cpp.in:286-294 | all torque controllers contribute iff the first controller's mode is valid or none of them precedes the first impedance controller |
| QuaternionProduct.ProductRepresentations | modules/math/include/dls2/math/rotations.hpp:524-575 | left matrix, right matrix and product formula agree for all quaternions |
| QuaternionProduct.NormOfProduct | modules/math/include/dls2/math/rotations.hpp:701-712 | the norm is multiplicative |
| QuaternionProduct.RotMatOfProduct | modules/math/include/dls2/math/rotations.hpp:25-38 | for unit quaternions the matrix of the product is the product of the matrices |
| QuaternionProduct.InverseUndoes | modules/math/include/dls2/math/rotations.hpp:694-699 | a unit quaternion times its inverse is one, on both sides |
| QuaternionProduct.InverseTransposes | modules/math/include/dls2/math/rotations.hpp:694-699 | the inverse has the transposed matrix in all three representations |
| QuaternionProduct.UnitOrthogonal | modules/math/include/dls2/math/rotations.hpp:25-38 | the matrix of a unit quaternion is orthogonal |
| QuaternionProduct.RpyAgree | modules/math/include/dls2/math/rotations.hpp:223-238 | for all angles the roll-pitch-yaw quaternion is a unit and its matrix is the product of the three axis rotations that rpyToRot forms |
| RotationRoundTrip.RootBounded | modules/math/include/dls2/math/rotations.hpp:304-354 | in every branch, for every matrix, the root exceeds 0.999, so no divisor is near zero and the 1e-06 guards always take their first arm |
| RotationRoundTrip.QuaternionRoundTrip | modules/math/include/dls2/math/rotations.hpp:287-358 | for every unit quaternion, to a matrix and back gives it or its negative, through all four branches |
| RotationRoundTrip.MatrixRoundTrip | modules/math/include/dls2/math/rotations.hpp:287-358 | for every orthogonal matrix with determinant one, to a quaternion and back gives the matrix, and the quaternion is a unit |
| RotationRoundTrip.DoubleCover | modules/math/include/dls2/math/rotations.hpp:25-38 | two unit quaternions have the same matrix iff they are equal up to sign |
| RotationRoundTrip.RotationIffUnit | modules/math/include/dls2/math/rotations.hpp:25-38 | a quaternion's matrix is a rotation iff the quaternion is a unit |
| RotationRoundTrip.SomeRoot | modules/math/include/dls2/math/rotations.hpp:304-353 | the root the conversion asks for exists for every unit quaternion, without assuming a square root function |
| MovingWindow.Window.constructor | modules/utils/include/dls2/util/numerical_moving_window.tpp:8-17 | a new window is empty and of the given capacity |
| MovingWindow.Window.Push | modules/utils/include/dls2/util/numerical_moving_window.tpp:19-88 | the contents become the last values up to the capacity, the new one raised to at least zero; sums and extrema stay those of the contents |
| MovingWindow.Window.Append | modules/utils/include/dls2/util/numerical_moving_window.tpp:30-51 | a push into a window with room adds the value behind the newest and keeps sums and extrema exact |
| MovingWindow.Window.Evict | modules/utils/include/dls2/util/numerical_moving_window.tpp:52-87 | a push into a full window drops the oldest value and keeps sums and extrema exact, also when an extremum leaves |
| MovingWindow.Window.RecomputeExtrema | modules/utils/include/dls2/util/numerical_moving_window.tpp:150-173 | the scan finds the largest and smallest value of the contents |
| MovingWindow.Window.Clear | modules/utils/include/dls2/util/numerical_moving_window.tpp:141-148 | empties the window although the extrema are not reset |
| MovingWindow.Window.GetMean | modules/utils/include/dls2/util/numerical_moving_window.tpp:90-97 | the mean of the contents, between the minimum and the maximum |
| MovingWindow.Window.Stddev | modules/utils/include/dls2/util/numerical_moving_window.tpp:99-113 | the root of the mean squared deviation over n - 1; the guard against a negative variance never changes the result |
| MovingWindow.Window.GetMax | modules/utils/include/dls2/util/numerical_moving_window.tpp:115-121 | the largest value of the contents, or zero |
| MovingWindow.Window.GetMin | modules/utils/include/dls2/util/numerical_moving_window.tpp:123-129 | the smallest value of the contents, or zero |
| MovingWindow.WindowHoldsRecent | modules/utils/include/dls2/util/numerical_moving_window.tpp:19-148 | after any pushes and clears the window holds, in order, as many of the newest values since the last clear as fit, each as pushed or zero if it was negative |
| MovingWindow.MeanBetween | modules/utils/include/dls2/util/numerical_moving_window.tpp:90-97 | the mean of any sequence lies between its extrema |
| MovingWindow.VarianceIsSpread | modules/utils/include/dls2/util/numerical_moving_window.tpp:105-111 | the running variance formula equals the sum of squared deviations over n - 1 and is not negative |
| Scheduler.SchedulerUtils.ExecuteEndLoopTask | modules/application/src/sched_utils.cpp:103-127 | per policy: yield, sleep until the next tick, throw on a non-positive period leaving the tick alone, or nothing |
| Scheduler.NextTickIsFirst | modules/application/src/sched_utils.cpp:109-124 | the next tick is on the grid, the very next one unless it has passed, and then the first one after now |
| Scheduler.StaysOnGrid | modules/application/src/sched_utils.cpp:103-127 | with a constant period every desired time is the start plus a multiple of it, and ticks elapsed are those executed plus those skipped |
| Scheduler.DesiredGrows | modules/application/src/sched_utils.cpp:103-127 | desired times strictly increase, by at least the shortest period each |
| Scheduler.NoBursts | modules/application/src/sched_utils.cpp:116-124 | iterations that start within any window of length L number at most floor(L / P) + 2, P the shortest period in force |
| Scheduler.PeriodInNanoseconds | modules/application/src/sched_utils.cpp:109-111 | the period in force is the microseconds asked for, scaled by the time factor, in nanoseconds, cut toward zero; it is accepted iff it is at least one nanosecond |
| Scheduler.WholePeriods | modules/application/src/sched_utils.cpp:103-127 | with whole microseconds and a whole factor the desired times are exact multiples of 1000 times both apart |
| OwnedProcesses.OwnedProcess.Running | modules/utils/include/dls2/util/owned_process.hpp:42-59 | exactly what the system answers: the child's state without an own group, else whether the group is empty; throws iff the child's state cannot be read; never true again after it was false |
| OwnedProcesses.OwnedProcess.SendSignal | modules/utils/include/dls2/util/owned_process.hpp:61-65 | signals exactly the processes not finished, and fails only if the system refuses: a process that has just gone is no error |
| OwnedProcesses.Wait | modules/utils/include/dls2/util/owned_process.hpp:85-94 | true only if everything has stopped, false only after the whole duration and if something was seen running, throws only if a system call failed; at most duration / 20 ms + 2 polls |
| OwnedProcesses.SignalAll | modules/utils/include/dls2/util/owned_process.hpp:95-102 | afterwards every process has stopped or got the signal, or a system call failed; no stopped one was signalled |
| OwnedProcesses.ShutdownProcesses | modules/utils/include/dls2/util/owned_process.hpp:82-117 | true only if the system itself said of every process that it is gone; false only after the whole time allowed, and then what still runs was killed and let go; throws only if a system call failed; signals escalate per process and stop with it; polls are bounded |
| OwnedProcesses.KilledOnlyAfterWarnings | modules/utils/include/dls2/util/owned_process.hpp:103-108 | a process sent the kill signal was sent interrupt and then terminate before |
| OwnedProcesses.StoppedIsLeftAlone | modules/utils/include/dls2/util/owned_process.hpp:95-102 | once seen stopped, a process is never seen running, signalled or let go again |
| EventNotifiers.RobustEventNotifier.constructor | modules/log/src/event_logger.cpp:72-77 | starts with no publications and sequence id zero |
| EventNotifiers.RobustEventNotifier.Publish | modules/log/src/event_logger.cpp:31-43 | sends the message with the next 32-bit sequence id |
| EventNotifiers.RobustEventNotifier.Notify | modules/log/src/event_logger.cpp:79-97 | refines the step function on the notifier's value |
| EventNotifiers.PublishedIffFarEnough | modules/log/src/event_logger.cpp:79-97 | over all histories: a notification is published iff the event was never published or its latest publication is at least the threshold in force ago |
| EventNotifiers.AllPublicationsApart | modules/log/src/event_logger.cpp:88-96 | under a monotone clock and a constant threshold any two publications of an event are at least the threshold apart |
| EventNotifiers.SequenceIdsHaveNoGaps | modules/log/src/event_logger.cpp:40-42 | exactly the published notifications are sent, and their ids count up from one without gaps around the wrap |
| EventNotifiers.SentAsAsked | modules/log/src/event_logger.cpp:31-43 | over all histories the message of a published notification has its caller's component, event, severity, text and stamp, and its own sequence id |
| CommandCodec.EncodeArgs | modules/command/src/command_manager.cpp:204-227 | the loop computes the encoding: one space for no arguments, else each argument and a comma |
| CommandCodec.DecodeArgs | modules/command/include/dls2/command/command.tpp:123-132 | the loop that cuts the string at its first comma computes the decoding |
| CommandCodec.DecodeSplits | modules/command/include/dls2/command/command.tpp:123-132 | decoding an encoded list yields the arguments split at their commas |
| CommandCodec.RoundTripIff | modules/command/src/command_manager.cpp:204-227 | the round trip returns the arguments iff none of them contains a comma |
| CommandCodec.EncodedAppend | modules/command/src/command_manager.cpp:209-220 | the wire holds the arguments in order, each with a comma behind it, and one space for none |
| CommandCodec.DecodedReassembles | modules/command/include/dls2/command/command.tpp:123-132 | any string received is the returned pieces, each with a comma behind it, and a comma-free rest that is lost |
| CommandCodec.PiecesHaveNoComma | modules/command/include/dls2/command/command.tpp:123-132 | no argument returned, from any string, contains a comma; with the previous row this determines the decoding |

## Left out

- Form: the shutdown signal, the life cycle and the control layer's protocol are values and interleaved steps rather than objects, because their methods run concurrently; update in place and aliasing between threads are what the steps express.
- ShutdownSignal: one instance at a time, as the header demands; fewer than 2^32 handlers are in flight at once, since the counter wraps there; restoring a signal action never fails; the pipe's read returns at most 64 bytes.
- Memory model: atomics and plain flags (`should_quit`, `can_die`, `quit`) are read and written in one indivisible, sequentially consistent step; so are lookups in the maps of events and transitions, and copies of state pointers.
- AppLifecycle: in this module raising an event and making a transition are one step each; LifecycleSplit drops that. Waiting for an event is a guarded step there, so lost wake-ups are the subject of EventWait alone.
- LifecycleResults.QuitWithinThreeTransitions: counts the main thread's own statements; that a callback returns and that a waiting thread is woken (see EventWait) is assumed.
- LifecycleResults.MonitorReleases: assumes the monitor's reports and child monitors return; messages and timestamps other than the two state names are not modelled.
- Pausing of periodic applications: a paused application reaches QUIT only after it continues.
- ControlLayer: `loadPythonController` takes no mutex and ignores `closing_`, so none of the protocol's results cover it. The stop routine itself (remote shutdown command, two-second wait, kill) is two steps.
- ControlLayerResults.NeverDeadlocks: a scoped lock on two mutexes takes and releases them in any order until it has both; that two crossed ones eventually succeed is left to the scheduler.
- ControlMerge: floating-point rounding; the real-time thread around the loop; spline premultipliers are given numbers. Torque vectors longer than the robot has joints are excluded, since the source would write past the end.
- Rotations: rounding; a square root is a given number, an angle a pair of half-angle cosine and sine; matrix to roll-pitch-yaw, orientation errors, SVD and the other conversions of the header.
- MovingWindow: rounding and the integer element types.
- Scheduler: overflow of 64-bit nanoseconds; real-time scheduling system calls; overrun reporting.
- OwnedProcess: reaping of orphaned descendants inside `running`, and the launch of processes.
- EventNotifiers: `toMs` is given as a function, since the header that defines it is not part of this model; the event listener and its ring buffer.
- CommandCodec: message transport, the interpretation of the decoded arguments, and command levels.
- DDS transport, discovery, YAML configuration, process launching, loggers, resource monitors, the topic monitor, the parameter server, the service client and layer, the console and the example applications: input and output, or easy members.
