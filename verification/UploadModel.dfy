// The upload state machine (upload-state-machine.h, upload-state-machine.cc): uploads one bundle at a
// time over a connection that may drop at any moment, and retries. A handler whose assert would fail,
// or an event other than NewBundlePending with no transition, sets `violated`. Three asserts can fail and
// have flags of their own: `vaultFailed` for the two about the creation of the vault, and `retryFailed`
// for the one that a bundle to upload has no server id yet.

module UploadModel {
  import opened Common
  import opened EventLoop

  /** A bundle and the id the server gave it (empty: none yet). */
  datatype Bundle = Bundle(id: nat, serverId: string)

  datatype State =
    | WaitForConnection | WaitForVaultDescription | HaveVaultDescription | WaitForVaultCreation | WaitForNewBundle
    | ReadyToUpload | WaitForUploadToComplete | WaitForUploadToRecord | WaitForBundleToDelete | BundleFinished
    | WaitForUpdatedBundleRetrieval | Done

  datatype Event =
    | ConnectionReady | ConnectionClosed | VaultDescriptionReady | VaultMissing | VaultCreated | VaultOk
    | NewBundlePending | NewBundleReady | NoBundlePending | UploadCompleted | UploadRecorded | BundleDeleted
    | BundleUploadedCallbackExecuted | UpdatedBundleRetrieved | FlushForced

  /** The connection, the result of its last operation, and what it said about the vault. */
  datatype Connection = Connection(open: bool, succeeded: bool, vaultFound: bool, attemptedCreation: bool, created: bool)

  /** `next` and `current` are the two slots; `accepted`, `recorded`, `deleted` and `returned` list the
      ids of the bundles this happened to. */
  datatype Slots = Slots(
    next: Option<Bundle>, current: Option<Bundle>, accepted: seq<nat>, recorded: seq<nat>, deleted: seq<nat>,
    returned: seq<nat>)

  /** `mayUpload`, `mayRetrieve`: the calls each callback allows once. */
  datatype Machine = Machine(
    state: State, loop: Loop<Event>, mayUpload: bool, mayRetrieve: bool, exitRequested: bool, violated: bool,
    vaultFailed: bool, retryFailed: bool, link: Connection, slots: Slots)
  {
    function Post(e: Event): Machine {
      this.(loop := loop.Post(e))
    }

    function Await(e: Event): Machine {
      this.(loop := loop.CreateCallback(e))
    }

    function Assert(ok: bool): Machine {
      this.(violated := violated || !ok)
    }

    function AssertVault(ok: bool): Machine {
      this.(vaultFailed := vaultFailed || !ok)
    }

    function AssertRetry(ok: bool): Machine {
      this.(retryFailed := retryFailed || !ok)
    }

    function To(next: State): Machine {
      this.(state := next)
    }

    function Close(): Machine {
      this.(link := link.(open := false))
    }
  }

  /** A machine that was started: it waits for its connection. */
  function NewMachine(): Machine {
    Machine(WaitForConnection, NewLoop<Event>().CreateCallback(ConnectionReady), true, false, false, false, false, false,
            Connection(false, false, false, false, false), Slots(None, None, [], [], [], []))
  }

  // ---------------------------------------------------------------------------------------------
  // Client calls

  datatype Call = UploadBundle(id: nat) | RetrieveLastUploadedBundle | FinishAndExit

  predicate Allowed(m: Machine, call: Call) {
    match call
    case UploadBundle(_) => m.mayUpload
    case RetrieveLastUploadedBundle => m.mayRetrieve
    case FinishAndExit => m.mayUpload
  }

  function Invoke(m: Machine, call: Call): Machine {
    match call
    case UploadBundle(id) =>
      m.Assert(m.slots.next.None?)
       .(mayUpload := false, slots := m.slots.(next := Some(Bundle(id, "")), accepted := m.slots.accepted + [id]))
       .Post(NewBundlePending)
    case RetrieveLastUploadedBundle =>
      m.(mayRetrieve := false,
         slots := m.slots.(returned := m.slots.returned + if m.slots.current.Some? then [m.slots.current.value.id] else []))
       .Post(UpdatedBundleRetrieved)
    case FinishAndExit => m.(mayUpload := false, exitRequested := true).Post(NewBundlePending)
  }

  /** The client's answers from inside a callback, in order; those against the rules are left out. */
  function InvokeAll(m: Machine, calls: seq<Call>): Machine
    decreases |calls|
  {
    if calls == [] then m
    else InvokeAll(if Allowed(m, calls[0]) then Invoke(m, calls[0]) else m, calls[1..])
  }

  // ---------------------------------------------------------------------------------------------
  // Handlers

  /** A connection can be reopened only when it is closed, which the program asserts. */
  function ReopenConnection(m: Machine): Machine {
    var n := if m.slots.current.None? then m
             else
               m.Assert(m.slots.next.None?)
                .(slots := m.slots.(next := m.slots.current, current := None), link := m.link.(attemptedCreation := false));
    n.Assert(!m.link.open).Await(ConnectionReady)
  }

  function GetVaultDescription(m: Machine): Machine {
    if !m.link.open then m.Post(ConnectionClosed)
    else m.AssertVault(!m.link.attemptedCreation || m.link.created).Await(VaultDescriptionReady)
  }

  function InspectVaultDescription(m: Machine): Machine {
    if !m.link.open || !m.link.succeeded then m.Close().Post(ConnectionClosed)
    else if m.link.vaultFound then m.Post(VaultOk)
    else m.Post(VaultMissing)
  }

  function CreateVault(m: Machine): Machine {
    if !m.link.open || !m.link.succeeded then m.Close().Post(ConnectionClosed)
    else m.AssertVault(!m.link.attemptedCreation).(link := m.link.(attemptedCreation := true)).Await(VaultCreated)
  }

  function WaitForInput(m: Machine): Machine {
    if m.exitRequested then m else m.(loop := m.loop.SetIdle(true))
  }

  function InspectNextBundle(m: Machine): Machine {
    var n := m.(slots := m.slots.(current := m.slots.next, next := None));
    if m.slots.next.Some? then n.Post(NewBundleReady)
    else if m.exitRequested then n.Post(FlushForced)
    else n.Post(NoBundlePending)
  }

  function StartUpload(m: Machine): Machine {
    if !m.link.open then m.Post(ConnectionClosed)
    else m.Assert(m.slots.current.Some?)
          .AssertRetry(m.slots.current.None? || m.slots.current.value.serverId == "").Await(UploadCompleted)
  }

  function RecordUpload(m: Machine): Machine {
    if !m.link.open || !m.link.succeeded || m.slots.current.None? || m.slots.current.value.serverId == "" then
      m.Close().Post(ConnectionClosed)
    else m.(slots := m.slots.(recorded := m.slots.recorded + [m.slots.current.value.id])).Await(UploadRecorded)
  }

  function DeleteBundle(m: Machine): Machine {
    var n := m.Assert(m.slots.current.Some?);
    if m.slots.current.None? then n
    else n.(slots := m.slots.(deleted := m.slots.deleted + [m.slots.current.value.id])).Post(BundleDeleted)
  }

  function ExecuteBundleUploadedCallback(m: Machine, replies: seq<Call>): Machine {
    var n := InvokeAll(m.(mayUpload := true, mayRetrieve := true), replies);
    n.(loop := n.loop.SetIdle(true))
  }

  function CleanUp(m: Machine): Machine {
    var n := m.Close();
    n.(loop := n.loop.SetIdle(false))
  }

  /** The transition table: the handler and the next state. A NewBundlePending that comes when it is not
      needed has no transition, which is fine: the bundle waits in its slot. */
  function Handle(m: Machine, e: Event, replies: seq<Call>): Machine {
    match (m.state, e)
    case (WaitForConnection, ConnectionReady) => GetVaultDescription(m).To(WaitForVaultDescription)
    case (WaitForVaultDescription, ConnectionClosed) => ReopenConnection(m).To(WaitForConnection)
    case (WaitForVaultDescription, VaultDescriptionReady) => InspectVaultDescription(m).To(HaveVaultDescription)
    case (HaveVaultDescription, ConnectionClosed) => ReopenConnection(m).To(WaitForConnection)
    case (HaveVaultDescription, VaultMissing) => CreateVault(m).To(WaitForVaultCreation)
    case (WaitForVaultCreation, ConnectionClosed) => ReopenConnection(m).To(WaitForConnection)
    case (WaitForVaultCreation, VaultCreated) => GetVaultDescription(m).To(WaitForVaultDescription)
    case (HaveVaultDescription, VaultOk) => InspectNextBundle(m).To(ReadyToUpload)
    case (ReadyToUpload, NoBundlePending) => WaitForInput(m).To(WaitForNewBundle)
    case (ReadyToUpload, NewBundleReady) => StartUpload(m).To(WaitForUploadToComplete)
    case (ReadyToUpload, FlushForced) => CleanUp(m).To(Done)
    case (WaitForNewBundle, NewBundlePending) => InspectNextBundle(m).To(ReadyToUpload)
    case (WaitForUploadToComplete, ConnectionClosed) => ReopenConnection(m).To(WaitForConnection)
    case (WaitForUploadToComplete, UploadCompleted) => RecordUpload(m).To(WaitForUploadToRecord)
    case (WaitForUploadToRecord, ConnectionClosed) => ReopenConnection(m).To(WaitForConnection)
    case (WaitForUploadToRecord, UploadRecorded) => DeleteBundle(m).To(WaitForBundleToDelete)
    case (WaitForBundleToDelete, BundleDeleted) =>
      ExecuteBundleUploadedCallback(m, replies).To(WaitForUpdatedBundleRetrieval)
    case (WaitForUpdatedBundleRetrieval, UpdatedBundleRetrieved) => InspectNextBundle(m).To(ReadyToUpload)
    case (_, NewBundlePending) => m
    case _ => m.Assert(false)
  }

  // ---------------------------------------------------------------------------------------------
  // Steps

  /** The outcome of a network operation: whether it succeeded, the vault was found, the archive's id. */
  datatype Delivery = Delivery(succeeded: bool, vaultFound: bool, serverId: string)

  /** What a completed operation leaves behind of the connection. */
  function DeliverLink(c: Connection, e: Event, d: Delivery): Connection {
    match e
    case ConnectionReady => c.(open := d.succeeded)
    case VaultDescriptionReady => c.(succeeded := d.succeeded, vaultFound := d.vaultFound)
    case VaultCreated => c.(succeeded := d.succeeded, created := d.succeeded)
    case UploadCompleted => c.(succeeded := d.succeeded)
    case _ => c
  }

  /** A completed upload gives its bundle the archive's id, and a failed one leaves no id. */
  function DeliverSlots(sl: Slots, e: Event, d: Delivery): Slots {
    if e != UploadCompleted || sl.current.None? then sl
    else sl.(current := Some(sl.current.value.(serverId := if d.succeeded then d.serverId else "")))
  }

  function Deliver(m: Machine, e: Event, d: Delivery): Machine {
    m.(link := DeliverLink(m.link, e, d), slots := DeliverSlots(m.slots, e, d))
  }

  datatype Step =
    | ClientCall(call: Call)
    | Complete(callback: nat, delivery: Delivery)
    | ConnectionDrops
    | RunNextEvent(replies: seq<Call>)

  predicate Enabled(m: Machine, step: Step) {
    match step
    case ClientCall(call) => Allowed(m, call)
    case Complete(i, _) => i < |m.loop.outstanding|
    case ConnectionDrops => true
    case RunNextEvent(_) => m.loop.tasks != []
  }

  function Next(m: Machine, step: Step): Machine
    requires Enabled(m, step)
  {
    match step
    case ClientCall(call) => Invoke(m, call)
    case Complete(i, d) =>
      var n := Deliver(m, m.loop.outstanding[i], d);
      n.(loop := m.loop.Invoke(i))
    case ConnectionDrops => m.Close()
    case RunNextEvent(replies) =>
      var begun := m.(loop := m.loop.Begin());
      if m.loop.queue == [] then begun else Handle(begun, m.loop.queue[0], replies)
  }

  /** A completed upload with an id is about to be inspected. */
  predicate Uploaded(m: Machine) {
    && m.state == WaitForUploadToComplete
    && m.loop.queue != [] && m.loop.queue[0] == UploadCompleted
    && m.slots.current.Some? && m.slots.current.value.serverId != ""
  }

  /** The completed upload about to be inspected, if any, is a success over an open connection or left no id. */
  predicate Coherent(m: Machine) {
    Uploaded(m) ==> m.link.open && m.link.succeeded
  }

  ghost predicate Runs(m: Machine, steps: seq<Step>, m': Machine)
    decreases |steps|
  {
    if steps == [] then m' == m
    else
      var last := |steps| - 1;
      exists mid :: Runs(m, steps[..last], mid) && Enabled(mid, steps[last]) && m' == Next(mid, steps[last])
  }

  /** The delivery of event `e`'s result does not say that the vault could not be created, nor, over an open
      connection and after an attempt to create it, that it was not found. */
  predicate VaultIsThere(m: Machine, e: Event, d: Delivery) {
    && (e == VaultCreated ==> d.succeeded)
    && (e == VaultDescriptionReady && m.link.open && d.succeeded && m.link.attemptedCreation ==> d.vaultFound)
  }

  /** Conditions on single steps: every delivery leaves the vault there; every completed upload is inspected
      in a coherent state. */
  datatype Condition = VaultThere | UploadsCoherent

  predicate Meets(m: Machine, step: Step, condition: Condition)
    requires Enabled(m, step)
  {
    match condition
    case VaultThere => step.Complete? ==> VaultIsThere(m, m.loop.outstanding[step.callback], step.delivery)
    case UploadsCoherent => step.RunNextEvent? ==> Coherent(m)
  }

  /** Runs whose every step meets a condition. */
  ghost predicate RunsMeeting(m: Machine, steps: seq<Step>, m': Machine, condition: Condition)
    decreases |steps|
  {
    if steps == [] then m' == m
    else
      var last := |steps| - 1;
      exists mid :: RunsMeeting(m, steps[..last], mid, condition) && Enabled(mid, steps[last])
                    && Meets(mid, steps[last], condition) && m' == Next(mid, steps[last])
  }
}
