// The asserts of the upload state machine that can fail: those about the vault's creation, and the retry's
// after an upload that completed just before the connection went down. For each, when it fails exactly.

module UploadFailures {
  import opened Common
  import EventLoop
  import opened UploadModel
  import opened UploadProofs

  // ---------------------------------------------------------------------------------------------
  // Runs on which the vault's asserts hold

  /** An attempt to create the vault succeeded. */
  ghost predicate VaultSettled(c: Connection) {
    c.attemptedCreation ==> c.created
  }

  /** The description in hand does not deny an attempt to create the vault. */
  ghost predicate NotDenied(c: Connection) {
    c.attemptedCreation && c.open && c.succeeded ==> c.vaultFound
  }

  ghost predicate VaultAt(m: Machine, e: Option<Event>, delivered: bool) {
    && !m.vaultFailed
    && match m.state
       case WaitForVaultDescription =>
         VaultSettled(m.link) && (e == Some(VaultDescriptionReady) && delivered ==> NotDenied(m.link))
       case HaveVaultDescription => VaultSettled(m.link) && (e == Some(VaultMissing) ==> !m.link.attemptedCreation)
       case WaitForVaultCreation =>
         (e == Some(ConnectionClosed) ==> VaultSettled(m.link)) && (e == Some(VaultCreated) && delivered ==> m.link.created)
       case _ => VaultSettled(m.link)
  }

  ghost predicate VaultInv(m: Machine) {
    VaultAt(m, Token(m.loop), Others(m.loop.queue) != [])
  }

  /** The machine as the handler of the one other event finds it. */
  lemma HandleKeepsVault(m: Machine, e: Event, replies: seq<Call>)
    requires Running(m) && At(m, Some(e), true) && VaultAt(m, Some(e), true) && e != NewBundlePending
    ensures VaultInv(Handle(m, e, replies))
  {
    hide Others, Kept, Noticed, PendingIsInternal, InvokeAll;
    match m.state
    case WaitForVaultDescription => AfterDescription(m, e, replies);
    case HaveVaultDescription => AfterInspection(m, e, replies);
    case WaitForVaultCreation => AfterCreation(m, e, replies);
    case _ => OthersKeepVault(m, e, replies);
  }

  lemma ClosedKeepsVault(m: Machine, replies: seq<Call>)
    requires BeforeVault(m.state) && VaultSettled(m.link) && !m.vaultFailed
    ensures VaultInv(Handle(m, ConnectionClosed, replies))
  {
    hide ReopenConnection, Others;
    ReopenLeavesVault(m);
  }

  lemma AfterDescription(m: Machine, e: Event, replies: seq<Call>)
    requires Running(m) && At(m, Some(e), true) && VaultAt(m, Some(e), true) && m.state == WaitForVaultDescription
    ensures VaultInv(Handle(m, e, replies))
  {
    hide Others, Kept, PendingIsInternal, InvokeAll, Busy, Empty, Noticed, Handle;
    if e == ConnectionClosed {
      ClosedKeepsVault(m, replies);
    } else {
      DescriptionInspected(m, replies);
    }
  }

  lemma DescriptionInspected(m: Machine, replies: seq<Call>)
    requires Running(m) && m.state == WaitForVaultDescription && VaultAt(m, Some(VaultDescriptionReady), true)
    ensures VaultInv(Handle(m, VaultDescriptionReady, replies))
  {
    hide Others, PendingIsInternal;
    if !m.link.open || !m.link.succeeded {
      OneTokenMore(m.loop, ConnectionClosed);
    } else if m.link.vaultFound {
      OneTokenMore(m.loop, VaultOk);
    } else {
      OneTokenMore(m.loop, VaultMissing);
    }
  }

  lemma AfterInspection(m: Machine, e: Event, replies: seq<Call>)
    requires Running(m) && At(m, Some(e), true) && VaultAt(m, Some(e), true) && m.state == HaveVaultDescription
    ensures VaultInv(Handle(m, e, replies))
  {
    hide Others, Kept, PendingIsInternal, InvokeAll, Busy, Empty, Noticed, Handle;
    if e == ConnectionClosed {
      ClosedKeepsVault(m, replies);
    } else if e == VaultOk {
      FoundKeepsVault(m, replies);
    } else {
      MissingKeepsVault(m, replies);
    }
  }

  lemma FoundKeepsVault(m: Machine, replies: seq<Call>)
    requires m.state == HaveVaultDescription && VaultAt(m, Some(VaultOk), true)
    ensures VaultInv(Handle(m, VaultOk, replies))
  {
    hide InspectNextBundle, Others;
    InspectLeavesVault(m);
  }

  lemma MissingKeepsVault(m: Machine, replies: seq<Call>)
    requires Running(m) && m.state == HaveVaultDescription && VaultAt(m, Some(VaultMissing), true)
    ensures VaultInv(Handle(m, VaultMissing, replies))
  {
    hide Others, PendingIsInternal;
    if !m.link.open || !m.link.succeeded {
      OneTokenMore(m.loop, ConnectionClosed);
    } else {
      OneTokenMore(m.loop, VaultCreated);
    }
  }

  lemma AfterCreation(m: Machine, e: Event, replies: seq<Call>)
    requires Running(m) && At(m, Some(e), true) && VaultAt(m, Some(e), true) && m.state == WaitForVaultCreation
    ensures VaultInv(Handle(m, e, replies))
  {
    hide Others, Kept, PendingIsInternal, InvokeAll;
    OneTokenMore(m.loop, if m.link.open then VaultDescriptionReady else ConnectionClosed);
  }

  lemma {:induction false} InvokeAllLeavesLink(m: Machine, calls: seq<Call>)
    ensures var n := InvokeAll(m, calls); n.link == m.link && n.vaultFailed == m.vaultFailed && n.state == m.state
    decreases |calls|
  {
    if calls != [] {
      InvokeAllLeavesLink(if Allowed(m, calls[0]) then Invoke(m, calls[0]) else m, calls[1..]);
    }
  }

  /** No state that comes after the vault was found. */
  predicate BeforeVault(state: State) {
    state == WaitForVaultDescription || state == HaveVaultDescription || state == WaitForVaultCreation
  }

  /** What the handlers of the other states do to the connection and the vault's asserts. */
  ghost predicate LeavesVault(m: Machine, n: Machine) {
    && n.link.created == m.link.created && (n.link.attemptedCreation ==> m.link.attemptedCreation)
    && n.vaultFailed == m.vaultFailed && n.state == m.state
  }

  lemma ReopenLeavesVault(m: Machine)
    ensures LeavesVault(m, ReopenConnection(m))
  {
    if m.slots.current.None? {
    } else {
    }
  }

  lemma InspectLeavesVault(m: Machine)
    ensures LeavesVault(m, InspectNextBundle(m))
  {
  }

  lemma WaitLeavesVault(m: Machine)
    ensures LeavesVault(m, WaitForInput(m))
  {
  }

  lemma StartLeavesVault(m: Machine)
    ensures LeavesVault(m, StartUpload(m))
  {
  }

  lemma RecordLeavesVault(m: Machine)
    ensures LeavesVault(m, RecordUpload(m))
  {
  }

  lemma DeleteLeavesVault(m: Machine)
    ensures LeavesVault(m, DeleteBundle(m))
  {
  }

  lemma CleanUpLeavesVault(m: Machine)
    ensures LeavesVault(m, CleanUp(m)) && LeavesVault(m, m.Assert(false))
  {
  }

  lemma CallbackLeavesVault(m: Machine, replies: seq<Call>)
    ensures LeavesVault(m, ExecuteBundleUploadedCallback(m, replies))
  {
    hide InvokeAll;
    InvokeAllLeavesLink(m.(mayUpload := true, mayRetrieve := true), replies);
  }

  /** The same, whatever the next state. */
  ghost predicate StaysSettled(m: Machine) {
    VaultSettled(m.link) && !m.vaultFailed && !BeforeVault(m.state)
  }

  lemma SettledBefore(m: Machine, e: Event, replies: seq<Call>)
    requires StaysSettled(m) && (m.state == WaitForConnection || m.state == WaitForNewBundle) && e != ConnectionReady
    ensures StaysSettled(Handle(m, e, replies))
  {
    hide InspectNextBundle, Machine.Assert;
    InspectLeavesVault(m);
    CleanUpLeavesVault(m);
  }

  lemma SettledReady(m: Machine, e: Event, replies: seq<Call>)
    requires StaysSettled(m) && m.state == ReadyToUpload
    ensures StaysSettled(Handle(m, e, replies))
  {
    hide WaitForInput, StartUpload, CleanUp, Machine.Assert;
    WaitLeavesVault(m);
    StartLeavesVault(m);
    CleanUpLeavesVault(m);
  }

  lemma SettledUploading(m: Machine, e: Event, replies: seq<Call>)
    requires StaysSettled(m) && (m.state == WaitForUploadToComplete || m.state == WaitForUploadToRecord)
    ensures StaysSettled(Handle(m, e, replies))
  {
    hide ReopenConnection, RecordUpload, DeleteBundle, Machine.Assert;
    ReopenLeavesVault(m);
    RecordLeavesVault(m);
    DeleteLeavesVault(m);
    CleanUpLeavesVault(m);
  }

  lemma SettledAfter(m: Machine, e: Event, replies: seq<Call>)
    requires StaysSettled(m)
    requires m.state in {WaitForBundleToDelete, BundleFinished, WaitForUpdatedBundleRetrieval, Done}
    ensures StaysSettled(Handle(m, e, replies))
  {
    hide ExecuteBundleUploadedCallback, InspectNextBundle, Machine.Assert;
    CallbackLeavesVault(m, replies);
    InspectLeavesVault(m);
    CleanUpLeavesVault(m);
  }

  lemma SettledStays(m: Machine, e: Event, replies: seq<Call>)
    requires StaysSettled(m) && e != ConnectionReady
    ensures StaysSettled(Handle(m, e, replies))
  {
    hide Handle, VaultSettled;
    match m.state
    case WaitForConnection => SettledBefore(m, e, replies);
    case WaitForNewBundle => SettledBefore(m, e, replies);
    case ReadyToUpload => SettledReady(m, e, replies);
    case WaitForUploadToComplete => SettledUploading(m, e, replies);
    case WaitForUploadToRecord => SettledUploading(m, e, replies);
    case _ => SettledAfter(m, e, replies);
  }

  lemma OthersKeepVault(m: Machine, e: Event, replies: seq<Call>)
    requires Running(m) && At(m, Some(e), true) && VaultAt(m, Some(e), true) && e != NewBundlePending
    requires !BeforeVault(m.state)
    ensures VaultInv(Handle(m, e, replies))
  {
    hide Others, Kept, Noticed, PendingIsInternal, InvokeAll, Busy;
    if e == ConnectionReady {
      OneTokenMore(m.loop, if m.link.open then VaultDescriptionReady else ConnectionClosed);
    } else {
      SettledStays(m, e, replies);
      hide Handle, At, Running;
    }
  }

  lemma RunNextEventKeepsVault(m: Machine, replies: seq<Call>)
    requires Inv(m) && VaultInv(m) && m.loop.tasks != []
    ensures VaultInv(Next(m, RunNextEvent(replies)))
  {
    hide Others, Kept, Handle, PendingIsInternal;
    BeginPops(m.loop);
    var begun := m.(loop := m.loop.Begin());
    if m.loop.queue[0] != NewBundlePending {
      assert Running(begun);
      assert At(begun, Some(m.loop.queue[0]), true);
      HandleKeepsVault(begun, m.loop.queue[0], replies);
    } else if m.state == WaitForNewBundle {
      WakingKeepsVault(begun, replies);
    } else {
      PendingDropped(m);
      AnyReplies(begun, replies);
    }
  }

  lemma WakingKeepsVault(m: Machine, replies: seq<Call>)
    requires m.state == WaitForNewBundle && VaultAt(m, None, false)
    ensures VaultInv(Handle(m, NewBundlePending, replies))
  {
    hide Others;
  }

  lemma AnyReplies(m: Machine, replies: seq<Call>)
    requires m.state != WaitForNewBundle
    ensures Handle(m, NewBundlePending, replies) == Handle(m, NewBundlePending, []) == m
  {
  }

  /** What a delivery says about the vault. */
  ghost predicate SaysOfVault(c: Connection, e: Event, d: Delivery, c': Connection) {
    && c'.attemptedCreation == c.attemptedCreation
    && c'.created == (if e == VaultCreated then d.succeeded else c.created)
    && (e == VaultDescriptionReady ==> c'.open == c.open && c'.succeeded == d.succeeded && c'.vaultFound == d.vaultFound)
  }

  lemma DeliverSays(c: Connection, e: Event, d: Delivery)
    ensures SaysOfVault(c, e, d, DeliverLink(c, e, d))
  {
  }

  lemma DeliversVault(m: Machine, e: Event, d: Delivery, n: Machine)
    requires VaultAt(m, Some(e), false) && VaultIsThere(m, e, d) && SaysOfVault(m.link, e, d, n.link)
    requires n.state == m.state && n.vaultFailed == m.vaultFailed
    ensures VaultAt(n, Some(e), true)
  {
  }

  lemma CompleteKeepsVault(m: Machine, i: nat, d: Delivery)
    requires Inv(m) && VaultInv(m) && Enabled(m, Complete(i, d)) && VaultIsThere(m, m.loop.outstanding[i], d)
    ensures VaultInv(Next(m, Complete(i, d)))
  {
    hide Others, Kept, PendingIsInternal, Noticed, Busy, Empty;
    var e := m.loop.outstanding[i];
    assert Others(m.loop.queue) == [] && Token(m.loop) == Some(e);
    InvokeDelivers(m.loop, i);
    DeliverSays(m.link, e, d);
    hide DeliverLink, DeliverSlots;
    DeliversVault(m, e, d, Next(m, Complete(i, d)));
  }

  lemma CallKeepsVault(m: Machine, call: Call)
    requires Inv(m) && VaultInv(m) && Allowed(m, call)
    ensures VaultInv(Invoke(m, call))
  {
    hide Others, Kept, PendingIsInternal, Noticed, Busy, Empty;
    if call.RetrieveLastUploadedBundle? {
      assert m.state == WaitForUpdatedBundleRetrieval;
    } else {
      Posted(m.loop, NewBundlePending);
      assert Others(m.loop.queue) + [] == Others(m.loop.queue);
    }
  }

  lemma StepKeepsVault(m: Machine, step: Step)
    requires Inv(m) && VaultInv(m) && Enabled(m, step)
    requires step.Complete? ==> VaultIsThere(m, m.loop.outstanding[step.callback], step.delivery)
    ensures VaultInv(Next(m, step))
  {
    hide Inv, Invoke, Handle, Deliver;
    match step
    case ClientCall(call) => CallKeepsVault(m, call);
    case Complete(i, d) => CompleteKeepsVault(m, i, d);
    case ConnectionDrops =>
    case RunNextEvent(replies) => RunNextEventKeepsVault(m, replies);
  }

  // ---------------------------------------------------------------------------------------------
  // Runs on which the retry's assert holds

  /** A bundle that is still to be uploaded, or to be uploaded again, has no server id. */
  ghost predicate RetryAt(m: Machine, e: Option<Event>) {
    && !m.retryFailed
    && (m.slots.next.Some? ==> m.slots.next.value.serverId == "")
    && (m.slots.current.Some? ==>
          match m.state
          case ReadyToUpload => m.slots.current.value.serverId == ""
          case WaitForUploadToComplete => e == Some(ConnectionClosed) ==> m.slots.current.value.serverId == ""
          case WaitForUploadToRecord => e == Some(ConnectionClosed) ==> m.slots.current.value.serverId == ""
          case _ => true)
  }

  ghost predicate RetryInv(m: Machine) {
    RetryAt(m, Token(m.loop))
  }

  lemma HandleKeepsRetry(m: Machine, e: Event, replies: seq<Call>)
    requires Running(m) && At(m, Some(e), true) && RetryAt(m, Some(e)) && e != NewBundlePending
    requires e == UploadCompleted && m.slots.current.Some? && m.slots.current.value.serverId != "" ==>
               m.link.open && m.link.succeeded
    ensures RetryInv(Handle(m, e, replies))
  {
    hide Others, Kept, Noticed, PendingIsInternal, InvokeAll;
    match m.state
    case ReadyToUpload => AfterTaking(m, e, replies);
    case WaitForUploadToComplete => AfterUpload(m, e, replies);
    case WaitForUploadToRecord => AfterRecording(m, e, replies);
    case WaitForBundleToDelete => AfterDeletion(m, e, replies);
    case WaitForUpdatedBundleRetrieval => TakesAnother(m, e, replies);
    case HaveVaultDescription => TakesAnother(m, e, replies);
    case _ => BeforeUploads(m, e, replies);
  }

  lemma AfterTaking(m: Machine, e: Event, replies: seq<Call>)
    requires Running(m) && At(m, Some(e), true) && RetryAt(m, Some(e)) && m.state == ReadyToUpload
    ensures RetryInv(Handle(m, e, replies))
  {
    hide Others, Kept, Noticed, PendingIsInternal, InvokeAll;
    if e == NewBundleReady {
      OneTokenMore(m.loop, if m.link.open then UploadCompleted else ConnectionClosed);
    }
  }

  lemma AfterUpload(m: Machine, e: Event, replies: seq<Call>)
    requires Running(m) && At(m, Some(e), true) && RetryAt(m, Some(e)) && m.state == WaitForUploadToComplete
    requires e == UploadCompleted && m.slots.current.Some? && m.slots.current.value.serverId != "" ==>
               m.link.open && m.link.succeeded
    ensures RetryInv(Handle(m, e, replies))
  {
    hide Others, Kept, PendingIsInternal, InvokeAll;
    if e == UploadCompleted {
      OneTokenMore(m.loop, if !m.link.open || !m.link.succeeded || m.slots.current.value.serverId == "" then ConnectionClosed
                           else UploadRecorded);
    }
  }

  lemma AfterRecording(m: Machine, e: Event, replies: seq<Call>)
    requires Running(m) && At(m, Some(e), true) && RetryAt(m, Some(e)) && m.state == WaitForUploadToRecord
    ensures RetryInv(Handle(m, e, replies))
  {
    hide Others, Kept, PendingIsInternal, InvokeAll;
  }

  /** Of the client's calls only a new bundle changes a slot, and it has no server id. */
  lemma {:induction false} InvokeAllAddsNew(m: Machine, calls: seq<Call>)
    requires m.slots.next.Some? ==> m.slots.next.value.serverId == ""
    ensures var n := InvokeAll(m, calls);
            && n.slots.current == m.slots.current && n.retryFailed == m.retryFailed && n.state == m.state
            && (n.slots.next.Some? ==> n.slots.next.value.serverId == "")
    decreases |calls|
  {
    if calls != [] {
      var n := if Allowed(m, calls[0]) then Invoke(m, calls[0]) else m;
      assert n.slots.current == m.slots.current && n.retryFailed == m.retryFailed && n.state == m.state;
      assert n.slots.next.Some? ==> n.slots.next.value.serverId == "";
      hide Invoke, Allowed;
      InvokeAllAddsNew(n, calls[1..]);
    }
  }

  lemma AfterDeletion(m: Machine, e: Event, replies: seq<Call>)
    requires At(m, Some(e), true) && RetryAt(m, Some(e)) && m.state == WaitForBundleToDelete
    ensures RetryInv(Handle(m, e, replies))
  {
    InvokeAllAddsNew(m.(mayUpload := true, mayRetrieve := true), replies);
    hide Others, Kept, PendingIsInternal, InvokeAll;
  }

  /** Handlers after which no bundle is being uploaded. */
  lemma ReopenKeepsRetry(m: Machine)
    requires !m.retryFailed && (m.slots.next.Some? ==> m.slots.next.value.serverId == "")
    requires m.slots.current.Some? ==> m.slots.current.value.serverId == ""
    ensures RetryInv(ReopenConnection(m).To(WaitForConnection))
  {
    hide Token;
    if m.slots.current.Some? {
    } else {
    }
  }

  lemma NextKeepsRetry(m: Machine)
    requires !m.retryFailed && (m.slots.next.Some? ==> m.slots.next.value.serverId == "")
    ensures RetryInv(InspectNextBundle(m).To(ReadyToUpload))
  {
    hide Token;
  }

  lemma CreationKeepsRetry(m: Machine)
    requires RetryAt(m, Some(VaultMissing))
    ensures RetryInv(CreateVault(m).To(WaitForVaultCreation))
  {
    hide Token;
  }

  lemma TakesAnother(m: Machine, e: Event, replies: seq<Call>)
    requires At(m, Some(e), true) && RetryAt(m, Some(e))
    requires m.state == WaitForUpdatedBundleRetrieval || m.state == HaveVaultDescription
    ensures RetryInv(Handle(m, e, replies))
  {
    hide Others, Kept, Busy, Noticed, RetryInv, InspectNextBundle, ReopenConnection, CreateVault;
    if e == ConnectionClosed {
      ReopenKeepsRetry(m);
    } else if e == VaultMissing {
      CreationKeepsRetry(m);
    } else {
      NextKeepsRetry(m);
    }
  }

  lemma BeforeUploads(m: Machine, e: Event, replies: seq<Call>)
    requires Running(m) && At(m, Some(e), true) && RetryAt(m, Some(e))
    requires m.state == WaitForConnection || m.state == WaitForVaultDescription || m.state == WaitForVaultCreation
             || m.state == WaitForNewBundle || m.state == Done
    ensures RetryInv(Handle(m, e, replies))
  {
    hide Others, Kept, Noticed, PendingIsInternal, InvokeAll;
  }

  lemma RunNextEventKeepsRetry(m: Machine, replies: seq<Call>)
    requires Inv(m) && RetryInv(m) && m.loop.tasks != [] && Coherent(m)
    ensures RetryInv(Next(m, RunNextEvent(replies)))
  {
    hide Others, Kept, Handle, PendingIsInternal;
    BeginPops(m.loop);
    var begun := m.(loop := m.loop.Begin());
    if m.loop.queue[0] != NewBundlePending {
      assert Running(begun);
      assert At(begun, Some(m.loop.queue[0]), true);
      HandleKeepsRetry(begun, m.loop.queue[0], replies);
    } else if m.state == WaitForNewBundle {
      WakingKeepsRetry(begun, replies);
    } else {
      PendingDropped(m);
      AnyReplies(begun, replies);
    }
  }

  lemma WakingKeepsRetry(m: Machine, replies: seq<Call>)
    requires m.state == WaitForNewBundle && RetryAt(m, None)
    ensures RetryInv(Handle(m, NewBundlePending, replies))
  {
    hide Others;
  }

  lemma CompleteKeepsRetry(m: Machine, i: nat, d: Delivery)
    requires Inv(m) && RetryInv(m) && Enabled(m, Complete(i, d))
    ensures RetryInv(Next(m, Complete(i, d)))
  {
    hide Others, Kept, PendingIsInternal, Noticed;
    var e := m.loop.outstanding[i];
    assert Others(m.loop.queue) == [] && Token(m.loop) == Some(e);
    InvokeDelivers(m.loop, i);
  }

  lemma CallKeepsRetry(m: Machine, call: Call)
    requires Inv(m) && RetryInv(m) && Allowed(m, call)
    ensures RetryInv(Invoke(m, call))
  {
    hide Others, Kept, PendingIsInternal, Noticed, Busy, Empty;
    if call.RetrieveLastUploadedBundle? {
      assert m.state == WaitForUpdatedBundleRetrieval;
    } else {
      Posted(m.loop, NewBundlePending);
      assert Others(m.loop.queue) + [] == Others(m.loop.queue);
    }
  }

  lemma StepKeepsRetry(m: Machine, step: Step)
    requires Inv(m) && RetryInv(m) && Enabled(m, step) && (step.RunNextEvent? ==> Coherent(m))
    ensures RetryInv(Next(m, step))
  {
    hide Inv, Invoke, Handle, Deliver;
    match step
    case ClientCall(call) => CallKeepsRetry(m, call);
    case Complete(i, d) => CompleteKeepsRetry(m, i, d);
    case ConnectionDrops =>
    case RunNextEvent(replies) => RunNextEventKeepsRetry(m, replies);
  }

  // ---------------------------------------------------------------------------------------------
  // Runs that meet a condition

  /** No assert that the condition is about has failed, nor is about to. */
  ghost predicate Fine(m: Machine, condition: Condition) {
    if condition.VaultThere? then VaultInv(m) else RetryInv(m)
  }

  lemma {:induction false} RunKeepsFine(m: Machine, steps: seq<Step>, m': Machine, condition: Condition)
    requires Inv(m) && Fine(m, condition) && RunsMeeting(m, steps, m', condition)
    ensures Inv(m') && Fine(m', condition)
    decreases |steps|
  {
    hide Inv, VaultInv, RetryInv, Next, Coherent, VaultIsThere;
    if steps != [] {
      var last := |steps| - 1;
      var mid :| RunsMeeting(m, steps[..last], mid, condition) && Enabled(mid, steps[last])
                 && Meets(mid, steps[last], condition) && m' == Next(mid, steps[last]);
      RunKeepsFine(m, steps[..last], mid, condition);
      StepKeeps(mid, steps[last]);
      if condition.VaultThere? {
        StepKeepsVault(mid, steps[last]);
      } else {
        StepKeepsRetry(mid, steps[last]);
      }
    }
  }

  lemma StartsFine(condition: Condition)
    ensures Inv(NewMachine()) && Fine(NewMachine(), condition)
  {
    InitialInv();
  }

  lemma MeansFine(m: Machine, condition: Condition)
    requires Fine(m, condition)
    ensures if condition.VaultThere? then !m.vaultFailed else !m.retryFailed
  {
  }

  /** Sufficient: as long as no delivery says that the vault could not be created, or was not found after an
      attempt to create it, the asserts about it hold. */
  lemma VaultAssertsHold(m: Machine, steps: seq<Step>)
    requires RunsMeeting(NewMachine(), steps, m, VaultThere)
    ensures !m.vaultFailed
  {
    hide *;
    StartsFine(VaultThere);
    RunKeepsFine(NewMachine(), steps, m, VaultThere);
    MeansFine(m, VaultThere);
  }

  /** Sufficient: as long as every completed upload that left an id is inspected over an open connection, with no
      failure after it, the assert of the retry holds. */
  lemma RetryAssertHolds(m: Machine, steps: seq<Step>)
    requires RunsMeeting(NewMachine(), steps, m, UploadsCoherent)
    ensures !m.retryFailed
  {
    hide *;
    StartsFine(UploadsCoherent);
    RunKeepsFine(NewMachine(), steps, m, UploadsCoherent);
    MeansFine(m, UploadsCoherent);
  }

  // ---------------------------------------------------------------------------------------------
  // Runs that go on to a failing assert

  ghost predicate Leads(m: Machine, m': Machine) {
    exists steps :: Runs(m, steps, m')
  }

  lemma NoSteps(m: Machine)
    ensures Runs(m, [], m)
  {
  }

  lemma Extend(m: Machine, steps: seq<Step>, mid: Machine, step: Step)
    requires Runs(m, steps, mid) && Enabled(mid, step)
    ensures Runs(m, steps + [step], Next(mid, step))
  {
    hide Next, Enabled;
    var all := steps + [step];
    assert all[..|all| - 1] == steps;
  }

  lemma {:induction false} RunOn(m: Machine, a: seq<Step>, mid: Machine, b: seq<Step>, m': Machine)
    requires Runs(m, a, mid) && Runs(mid, b, m')
    ensures Runs(m, a + b, m')
    decreases |b|
  {
    hide Next, Enabled;
    if b == [] {
      assert a + b == a;
    } else {
      var last := |b| - 1;
      var n :| Runs(mid, b[..last], n) && Enabled(n, b[last]) && m' == Next(n, b[last]);
      hide Runs;
      RunOn(m, a, mid, b[..last], n);
      Extend(m, a + b[..last], n, b[last]);
      assert a + b[..last] + [b[last]] == a + b;
    }
  }

  lemma LeadsOn(m: Machine, mid: Machine, m': Machine)
    requires Leads(m, mid) && Leads(mid, m')
    ensures Leads(m, m')
  {
    hide Runs;
    var a :| Runs(m, a, mid);
    var b :| Runs(mid, b, m');
    RunOn(m, a, mid, b, m');
  }

  lemma OneStep(m: Machine, step: Step)
    requires Enabled(m, step)
    ensures Leads(m, Next(m, step))
  {
    hide Next, Enabled, Runs;
    NoSteps(m);
    Extend(m, [], m, step);
  }

  /** What every reachable loop is like: at most one event besides NewBundlePending is on its way. */
  ghost predicate Orderly(l: EventLoop.Loop<Event>) {
    l.Valid() && PendingIsInternal(l.queue, l.tasks) && |Others(l.queue)| + |l.outstanding| <= 1
  }

  ghost predicate NothingElse(l: EventLoop.Loop<Event>) {
    l.Valid() && PendingIsInternal(l.queue, l.tasks) && Others(l.queue) == [] && l.outstanding == []
  }

  /** An event in the queue gets its turn: the NewBundlePending events before it are dropped. */
  lemma {:induction false} GetsItsTurn(m: Machine, e: Event) returns (begun: Machine)
    requires Orderly(m.loop) && Others(m.loop.queue) == [e] && m.state != WaitForNewBundle
    ensures begun == m.(loop := begun.loop) && NothingElse(begun.loop)
    ensures Leads(m, Handle(begun, e, []))
    decreases |m.loop.queue|
  {
    hide Handle, PendingIsInternal, Leads;
    BeginPops(m.loop);
    var n := m.(loop := m.loop.Begin());
    OneStep(m, RunNextEvent([]));
    if m.loop.queue[0] != NewBundlePending {
      begun := n;
    } else {
      AnyReplies(n, []);
      begun := GetsItsTurn(n, e);
      LeadsOn(m, n, Handle(begun, e, []));
    }
  }

  /** The outstanding callback's result is delivered, and then its event gets its turn. */
  lemma DeliveredInTurn(m: Machine, e: Event, d: Delivery) returns (begun: Machine)
    requires Orderly(m.loop) && m.loop.outstanding == [e] && e != NewBundlePending && m.state != WaitForNewBundle
    ensures begun == Deliver(m, e, d).(loop := begun.loop) && NothingElse(begun.loop)
    ensures Leads(m, Handle(begun, e, []))
  {
    hide Handle, PendingIsInternal, Leads, Others;
    InvokeDelivers(m.loop, 0);
    var n := Next(m, Complete(0, d));
    OneStep(m, Complete(0, d));
    begun := GetsItsTurn(n, e);
    LeadsOn(m, n, Handle(begun, e, []));
  }

  lemma PostedOne(l: EventLoop.Loop<Event>, e: Event)
    requires NothingElse(l) && e != NewBundlePending
    ensures Orderly(l.Post(e)) && Others(l.Post(e).queue) == [e]
    ensures Orderly(l.CreateCallback(e)) && l.CreateCallback(e).outstanding == [e]
  {
    hide Others, PendingIsInternal;
    OneTokenMore(l, e);
  }

  // ---------------------------------------------------------------------------------------------
  // The vault's asserts

  const GOOD := Delivery(true, true, "")

  /** A machine whose attempt to create the vault failed fails when it asks for the description again: at once,
      or over the next connection. */
  lemma UncreatedVaultFails(m: Machine)
    requires Orderly(m.loop) && m.state == WaitForVaultCreation && Others(m.loop.queue) == [VaultCreated]
    requires m.slots.current.None? && m.link.attemptedCreation && !m.link.created
    ensures exists m' :: Leads(m, m') && m'.vaultFailed
  {
    hide Leads, Orderly, NothingElse, Others;
    var a := GetsItsTurn(m, VaultCreated);
    var m1 := Handle(a, VaultCreated, []);
    if m.link.open {
      assert m1.vaultFailed;
    } else {
      PostedOne(a.loop, ConnectionClosed);
      assert m1.loop == a.loop.Post(ConnectionClosed) && m1.state == WaitForVaultDescription;
      assert m1.link == m.link && m1.slots == m.slots;
      hide Handle;
      ReopenedFails(m1);
      var m' :| Leads(m1, m') && m'.vaultFailed;
      LeadsOn(m, m1, m');
    }
  }

  lemma ReopenedFails(m: Machine)
    requires Orderly(m.loop) && m.state == WaitForVaultDescription && Others(m.loop.queue) == [ConnectionClosed]
    requires m.slots.current.None? && m.link.attemptedCreation && !m.link.created
    ensures exists m' :: Leads(m, m') && m'.vaultFailed
  {
    hide Leads, Orderly, NothingElse, Others;
    var b := GetsItsTurn(m, ConnectionClosed);
    var m1 := Handle(b, ConnectionClosed, []);
    PostedOne(b.loop, ConnectionReady);
    assert m1.loop == b.loop.CreateCallback(ConnectionReady) && m1.link == m.link && m1.state == WaitForConnection;
    var c := DeliveredInTurn(m1, ConnectionReady, GOOD);
    var m2 := Handle(c, ConnectionReady, []);
    assert m2.vaultFailed;
    LeadsOn(m, m1, m2);
  }

  /** A machine that did not find the vault it attempted to create fails when it attempts that again. */
  lemma DeniedVaultFails(m: Machine)
    requires Orderly(m.loop) && m.state == WaitForVaultDescription && Others(m.loop.queue) == [VaultDescriptionReady]
    requires m.link.attemptedCreation && m.link.open && m.link.succeeded && !m.link.vaultFound
    ensures exists m' :: Leads(m, m') && m'.vaultFailed
  {
    hide Leads, Orderly, NothingElse, Others;
    var a := GetsItsTurn(m, VaultDescriptionReady);
    var m1 := Handle(a, VaultDescriptionReady, []);
    PostedOne(a.loop, VaultMissing);
    assert m1.loop == a.loop.Post(VaultMissing) && m1.link == m.link;
    var b := GetsItsTurn(m1, VaultMissing);
    var m2 := Handle(b, VaultMissing, []);
    assert m2.vaultFailed;
    LeadsOn(m, m1, m2);
  }

  /** Necessary: whenever such a delivery is made, there is a run from there on which one of the two asserts
      fails. */
  lemma VaultAssertsFail(m: Machine, i: nat, d: Delivery)
    requires Reachable(m) && Enabled(m, Complete(i, d)) && !VaultIsThere(m, m.loop.outstanding[i], d)
    ensures exists m' :: Leads(Next(m, Complete(i, d)), m') && m'.vaultFailed
  {
    hide Leads, Reachable, Kept, Others, PendingIsInternal;
    ReachableInv(m);
    var e := m.loop.outstanding[i];
    assert Others(m.loop.queue) == [] && Token(m.loop) == Some(e);
    InvokeDelivers(m.loop, i);
    var n := Next(m, Complete(i, d));
    assert Others(n.loop.queue) == [e] && Orderly(n.loop);
    if e == VaultCreated {
      UncreatedVaultFails(n);
    } else {
      DeniedVaultFails(n);
    }
  }

  // ---------------------------------------------------------------------------------------------
  // The retry's assert

  /** A bundle with a server id that is put back is taken up again over the next connection, and fails. */
  lemma RetryFails(m: Machine)
    requires Orderly(m.loop) && m.state == WaitForUploadToRecord && Others(m.loop.queue) == [ConnectionClosed]
    requires m.slots.current.Some? && m.slots.current.value.serverId != ""
    ensures exists m' :: Leads(m, m') && m'.retryFailed
  {
    hide Leads, Orderly, NothingElse, Others;
    var a := GetsItsTurn(m, ConnectionClosed);
    var m1 := Handle(a, ConnectionClosed, []);
    PostedOne(a.loop, ConnectionReady);
    assert m1.loop == a.loop.CreateCallback(ConnectionReady) && m1.slots.next == m.slots.current;
    var b := DeliveredInTurn(m1, ConnectionReady, GOOD);
    var m2 := Handle(b, ConnectionReady, []);
    PostedOne(b.loop, VaultDescriptionReady);
    assert m2.loop == b.loop.CreateCallback(VaultDescriptionReady) && m2.slots == m1.slots && m2.link.open;
    LeadsOn(m, m1, m2);
    FoundVaultFails(m2);
    var m' :| Leads(m2, m') && m'.retryFailed;
    LeadsOn(m, m2, m');
  }

  lemma FoundVaultFails(m: Machine)
    requires Orderly(m.loop) && m.state == WaitForVaultDescription && m.loop.outstanding == [VaultDescriptionReady]
    requires m.link.open && m.slots.next.Some? && m.slots.next.value.serverId != ""
    ensures exists m' :: Leads(m, m') && m'.retryFailed
  {
    hide Leads, Orderly, NothingElse, Others;
    var a := DeliveredInTurn(m, VaultDescriptionReady, GOOD);
    var m1 := Handle(a, VaultDescriptionReady, []);
    PostedOne(a.loop, VaultOk);
    assert m1.loop == a.loop.Post(VaultOk) && m1.slots == m.slots && m1.link.open;
    var b := GetsItsTurn(m1, VaultOk);
    var m2 := Handle(b, VaultOk, []);
    PostedOne(b.loop, NewBundleReady);
    assert m2.loop == b.loop.Post(NewBundleReady) && m2.slots.current == m.slots.next && m2.link.open;
    var c := GetsItsTurn(m2, NewBundleReady);
    var m3 := Handle(c, NewBundleReady, []);
    assert m3.retryFailed;
    LeadsOn(m, m1, m2);
    LeadsOn(m, m2, m3);
  }

  /** The coherence condition is necessary: from every reachable state in which a completed upload that left an
      id is about to be inspected over a connection that is down, or after a later failure, there is a run on
      which the retry's assert fails. */
  lemma IncoherentUploadFails(m: Machine)
    requires Reachable(m) && !Coherent(m)
    ensures exists m' :: Leads(m, m') && m'.retryFailed
  {
    hide Leads, Reachable, Kept, Others, PendingIsInternal;
    ReachableInv(m);
    UploadedAlone(m);
    var begun := GetsItsTurn(m, UploadCompleted);
    var m1 := Handle(begun, UploadCompleted, []);
    PostedOne(begun.loop, ConnectionClosed);
    assert m1.loop == begun.loop.Post(ConnectionClosed);
    RetryFails(m1);
    var m' :| Leads(m1, m') && m'.retryFailed;
    LeadsOn(m, m1, m');
  }

  lemma UploadedAlone(m: Machine)
    requires Inv(m) && Uploaded(m)
    ensures Others(m.loop.queue) == [UploadCompleted] && Orderly(m.loop)
  {
    assert Others(m.loop.queue) == [UploadCompleted] + Others(m.loop.queue[1..]);
  }

  // ---------------------------------------------------------------------------------------------
  // Runs from the start

  /** Only this event is on its way: queued, or outstanding. */
  ghost predicate OnlyQueued(m: Machine, state: State, e: Event) {
    m.state == state && m.loop.queue == [e] && |m.loop.tasks| == 1 && m.loop.outstanding == []
  }

  ghost predicate OnlyAwaited(m: Machine, state: State, e: Event) {
    m.state == state && m.loop.queue == [] && m.loop.tasks == [] && m.loop.outstanding == [e]
  }

  const RUN := RunNextEvent([])

  lemma DeliveredAlone(m: Machine, state: State, e: Event, d: Delivery)
    requires OnlyAwaited(m, state, e)
    ensures Enabled(m, Complete(0, d))
    ensures var n := Next(m, Complete(0, d)); OnlyQueued(n, state, e) && n == Deliver(m, e, d).(loop := n.loop)
  {
    assert Deliver(m, e, d).state == state;
    hide Deliver;
    var n := Next(m, Complete(0, d));
    assert n.loop.queue == [] + [e];
  }

  lemma RunAlone(m: Machine, state: State, e: Event) returns (begun: Machine)
    requires OnlyQueued(m, state, e)
    ensures Enabled(m, RUN) && Next(m, RUN) == Handle(begun, e, [])
    ensures begun == m.(loop := begun.loop) && begun.loop.Quiet()
  {
    hide Handle;
    begun := m.(loop := m.loop.Begin());
    assert m.loop.tasks[1..] == [];
  }

  /** What a handler posts or awaits is then alone. */
  lemma Alone(l: EventLoop.Loop<Event>, e: Event)
    requires l.Quiet()
    ensures l.Post(e).queue == [e] && |l.Post(e).tasks| == 1 && l.Post(e).outstanding == []
    ensures l.CreateCallback(e).outstanding == [e] && l.CreateCallback(e).queue == [] && l.CreateCallback(e).tasks == []
  {
  }

  /** The connection is opened. */
  function Opening(): seq<Step> {
    [Complete(0, GOOD), RUN]
  }

  lemma Opens() returns (m: Machine)
    ensures Runs(NewMachine(), Opening(), m) && OnlyAwaited(m, WaitForVaultDescription, VaultDescriptionReady)
    ensures m.slots == NewMachine().slots && m.link.open && !m.link.attemptedCreation && m.mayUpload && !m.exitRequested
  {
    hide Next, Handle, Runs;
    var start := NewMachine();
    assert OnlyAwaited(start, WaitForConnection, ConnectionReady);
    DeliveredAlone(start, WaitForConnection, ConnectionReady, GOOD);
    var n := Next(start, Complete(0, GOOD));
    var begun := RunAlone(n, WaitForConnection, ConnectionReady);
    m := Next(n, RUN);
    AsksForVault(begun);
    Alone(begun.loop, VaultDescriptionReady);
    assert m.slots == start.slots && m.link.open && !m.link.attemptedCreation && m.mayUpload && !m.exitRequested;
    hide NewMachine, Deliver;
    NoSteps(start);
    Extend(start, [], start, Complete(0, GOOD));
    Extend(start, [] + [Complete(0, GOOD)], n, RUN);
    assert Opening() == [] + [Complete(0, GOOD)] + [RUN];
  }

  lemma AsksForVault(m: Machine)
    requires m.state == WaitForConnection && m.link.open
    ensures var n := Handle(m, ConnectionReady, []);
            n == m.AssertVault(!m.link.attemptedCreation || m.link.created)
                  .(loop := m.loop.CreateCallback(VaultDescriptionReady), state := WaitForVaultDescription)
  {
  }

  /** A step of a run that so far has led to a single event on its way: its result is delivered, it is run. */
  lemma ThenDelivered(steps: seq<Step>, m: Machine, state: State, e: Event, d: Delivery) returns (n: Machine)
    requires Runs(NewMachine(), steps, m) && OnlyAwaited(m, state, e)
    ensures Runs(NewMachine(), steps + [Complete(0, d)], n) && OnlyQueued(n, state, e)
    ensures n == Deliver(m, e, d).(loop := n.loop)
  {
    hide Next, Deliver, Runs, NewMachine, OnlyQueued;
    DeliveredAlone(m, state, e, d);
    n := Next(m, Complete(0, d));
    Extend(NewMachine(), steps, m, Complete(0, d));
  }

  lemma ThenRun(steps: seq<Step>, m: Machine, state: State, e: Event) returns (begun: Machine)
    requires Runs(NewMachine(), steps, m) && OnlyQueued(m, state, e)
    ensures Runs(NewMachine(), steps + [RUN], Handle(begun, e, []))
    ensures begun == m.(loop := begun.loop) && begun.loop.Quiet()
  {
    hide Next, Handle, Runs, NewMachine;
    begun := RunAlone(m, state, e);
    Extend(NewMachine(), steps, m, RUN);
  }

  /** A vault that is not there, and whose creation is refused. */
  function RefusedVault(): seq<Step> {
    Opening() + [Complete(0, Delivery(true, false, ""))] + [RUN] + [RUN] + [Complete(0, Delivery(false, false, ""))] + [RUN]
  }

  /** A run from the start on which an assert about the vault fails: all it takes is that the server refuses to
      create the vault. */
  lemma RefusedVaultFails()
    ensures exists m :: Runs(NewMachine(), RefusedVault(), m) && m.vaultFailed
  {
    hide Runs, NewMachine;
    var m := Opens();
    var steps := Opening();
    var n := ThenDelivered(steps, m, WaitForVaultDescription, VaultDescriptionReady, Delivery(true, false, ""));
    steps := steps + [Complete(0, Delivery(true, false, ""))];
    var a := ThenRun(steps, n, WaitForVaultDescription, VaultDescriptionReady);
    m := Handle(a, VaultDescriptionReady, []);
    Alone(a.loop, VaultMissing);
    assert OnlyQueued(m, HaveVaultDescription, VaultMissing) && m.link == n.link;
    steps := steps + [RUN];
    CreationRefused(steps, m);
  }

  lemma CreationRefused(steps: seq<Step>, m: Machine)
    requires Runs(NewMachine(), steps, m) && OnlyQueued(m, HaveVaultDescription, VaultMissing)
    requires m.link.open && m.link.succeeded
    ensures exists m' :: && Runs(NewMachine(), steps + [RUN] + [Complete(0, Delivery(false, false, ""))] + [RUN], m')
                         && m'.vaultFailed
  {
    hide Runs, NewMachine;
    var b := ThenRun(steps, m, HaveVaultDescription, VaultMissing);
    var m1 := Handle(b, VaultMissing, []);
    Alone(b.loop, VaultCreated);
    assert OnlyAwaited(m1, WaitForVaultCreation, VaultCreated) && m1.link.attemptedCreation && m1.link.open;
    var n := ThenDelivered(steps + [RUN], m1, WaitForVaultCreation, VaultCreated, Delivery(false, false, ""));
    var c := ThenRun(steps + [RUN] + [Complete(0, Delivery(false, false, ""))], n, WaitForVaultCreation, VaultCreated);
    assert Handle(c, VaultCreated, []).vaultFailed;
  }

  /** The vault is found, and a bundle `id` comes and is being uploaded. */
  function Uploading(id: nat): seq<Step> {
    Opening() + [Complete(0, GOOD)] + [RUN] + [RUN] + [RUN] + [ClientCall(UploadBundle(id))] + [RUN] + [RUN]
  }

  lemma FindsVault(steps: seq<Step>, m: Machine) returns (m': Machine)
    requires Runs(NewMachine(), steps, m) && OnlyAwaited(m, WaitForVaultDescription, VaultDescriptionReady)
    requires m.link.open && m.slots.next.None? && m.mayUpload && !m.exitRequested
    ensures Runs(NewMachine(), steps + [Complete(0, GOOD)] + [RUN] + [RUN] + [RUN], m')
    ensures m'.state == WaitForNewBundle && m'.loop.Quiet() && m'.link.open && m'.slots.next.None? && m'.mayUpload
  {
    hide Runs, NewMachine;
    var n := ThenDelivered(steps, m, WaitForVaultDescription, VaultDescriptionReady, GOOD);
    var s1 := steps + [Complete(0, GOOD)];
    var a := ThenRun(s1, n, WaitForVaultDescription, VaultDescriptionReady);
    var m1 := Handle(a, VaultDescriptionReady, []);
    Alone(a.loop, VaultOk);
    assert OnlyQueued(m1, HaveVaultDescription, VaultOk);
    var b := ThenRun(s1 + [RUN], m1, HaveVaultDescription, VaultOk);
    var m2 := Handle(b, VaultOk, []);
    Alone(b.loop, NoBundlePending);
    assert OnlyQueued(m2, ReadyToUpload, NoBundlePending);
    var c := ThenRun(s1 + [RUN] + [RUN], m2, ReadyToUpload, NoBundlePending);
    m' := Handle(c, NoBundlePending, []);
  }

  lemma TakesBundle(steps: seq<Step>, m: Machine, id: nat) returns (m': Machine)
    requires Runs(NewMachine(), steps, m) && m.state == WaitForNewBundle && m.loop.Quiet()
    requires m.link.open && m.slots.next.None? && m.mayUpload
    ensures Runs(NewMachine(), steps + [ClientCall(UploadBundle(id))] + [RUN] + [RUN], m')
    ensures OnlyAwaited(m', WaitForUploadToComplete, UploadCompleted) && m'.slots.current == Some(Bundle(id, ""))
  {
    hide Runs, NewMachine;
    var call := ClientCall(UploadBundle(id));
    var n := Next(m, call);
    Extend(NewMachine(), steps, m, call);
    Alone(m.loop, NewBundlePending);
    assert OnlyQueued(n, WaitForNewBundle, NewBundlePending);
    var a := ThenRun(steps + [call], n, WaitForNewBundle, NewBundlePending);
    var m1 := Handle(a, NewBundlePending, []);
    Alone(a.loop, NewBundleReady);
    assert OnlyQueued(m1, ReadyToUpload, NewBundleReady);
    var b := ThenRun(steps + [call] + [RUN], m1, ReadyToUpload, NewBundleReady);
    m' := Handle(b, NewBundleReady, []);
    Alone(b.loop, UploadCompleted);
  }

  /** The upload succeeds, and then the connection goes down. */
  function UploadedAndCut(id: nat, serverId: string): seq<Step> {
    Uploading(id) + [Complete(0, Delivery(true, true, serverId))] + [ConnectionDrops]
  }

  /** A run from the start to an incoherent state, and so to a failing assert: all it takes is that the
      connection goes down between the success of an upload and its inspection. */
  lemma UploadedAndCutFails(id: nat, serverId: string)
    requires serverId != ""
    ensures exists m :: && Runs(NewMachine(), UploadedAndCut(id, serverId), m) && !Coherent(m)
                        && exists m' :: Leads(m, m') && m'.retryFailed
  {
    hide Runs, NewMachine, Leads;
    var m := Opens();
    OpensWithout();
    m := FindsVault(Opening(), m);
    m := TakesBundle(Opening() + [Complete(0, GOOD)] + [RUN] + [RUN] + [RUN], m, id);
    var n := ThenDelivered(Uploading(id), m, WaitForUploadToComplete, UploadCompleted, Delivery(true, true, serverId));
    var cut := Next(n, ConnectionDrops);
    Extend(NewMachine(), Uploading(id) + [Complete(0, Delivery(true, true, serverId))], n, ConnectionDrops);
    assert !Coherent(cut);
    assert Reachable(cut);
    IncoherentUploadFails(cut);
  }

  lemma OpensWithout()
    ensures NewMachine().slots.next.None?
  {
  }
}
