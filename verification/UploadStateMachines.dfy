// The upload state machine as the program runs it: an object whose handlers update its fields. Every
// method does exactly the step of UploadModel that carries its name; `vaultFailed` and `retryFailed` are raised
// where the asserts that can fail would: those about the vault, and the one that a bundle to upload has no id.

module UploadStateMachines {
  import opened Common
  import EventLoop
  import opened UploadModel
  import UploadProofs

  class UploadStateMachine {
    const events: EventLoop.EventQueue<Event>
    var state: State
    var exitRequested: bool
    var link: Connection
    var nextBundleData: Option<Bundle>
    var currentBundleData: Option<Bundle>
    // The client's next calls, and the history.
    var mayUpload: bool
    var mayRetrieve: bool
    ghost var vaultFailed: bool
    ghost var retryFailed: bool
    ghost var accepted: seq<nat>
    ghost var recorded: seq<nat>
    ghost var deleted: seq<nat>
    ghost var returned: seq<nat>

    ghost function Now(): Machine
      reads this, events
    {
      Machine(state, events.State(), mayUpload, mayRetrieve, exitRequested, false, vaultFailed, retryFailed, link,
              Slots(nextBundleData, currentBundleData, accepted, recorded, deleted, returned))
    }

    /** Creates and starts the machine: opening the connection is its first external operation. */
    constructor ()
      ensures Now() == NewMachine() && fresh(events)
    {
      var queue := new EventLoop.EventQueue<Event>();
      queue.CreateExternalEventCallback(ConnectionReady);
      events := queue;
      state, exitRequested, link := WaitForConnection, false, Connection(false, false, false, false, false);
      nextBundleData, currentBundleData, mayUpload, mayRetrieve := None, None, true, false;
      vaultFailed, retryFailed, accepted, recorded, deleted, returned := false, false, [], [], [], [];
    }

    // -------------------------------------------------------------------------------------------
    // Client calls

    method UploadBundle(id: nat)
      requires nextBundleData.None?
      modifies this`nextBundleData, this`mayUpload, this`accepted, events
      ensures Now() == Invoke(old(Now()), Call.UploadBundle(id))
    {
      mayUpload := false;
      nextBundleData := Some(Bundle(id, ""));
      accepted := accepted + [id];
      events.PostEvent(NewBundlePending);
    }

    method FinishAndExit()
      modifies this`exitRequested, this`mayUpload, events
      ensures Now() == Invoke(old(Now()), Call.FinishAndExit)
    {
      mayUpload := false;
      exitRequested := true;
      events.PostEvent(NewBundlePending);
    }

    method RetrieveLastUploadedBundle() returns (bundle: Option<Bundle>)
      modifies this`mayRetrieve, this`returned, events
      ensures Now() == Invoke(old(Now()), Call.RetrieveLastUploadedBundle) && bundle == currentBundleData
    {
      mayRetrieve := false;
      bundle := currentBundleData;
      returned := returned + if bundle.Some? then [bundle.value.id] else [];
      events.PostEvent(UpdatedBundleRetrieved);
    }

    /** The client's answers from inside the callback, one after the other. */
    method CallBackClient(replies: seq<Call>)
      requires mayUpload ==> nextBundleData.None?
      modifies this`nextBundleData, this`mayUpload, this`mayRetrieve, this`exitRequested, this`accepted, this`returned,
               events
      ensures Now() == InvokeAll(old(Now()), replies)
    {
      hide Invoke;
      var i := 0;
      while i < |replies|
        invariant 0 <= i <= |replies|
        invariant mayUpload ==> nextBundleData.None?
        invariant InvokeAll(Now(), replies[i..]) == InvokeAll(old(Now()), replies)
      {
        assert replies[i..][0] == replies[i] && replies[i..][1..] == replies[i + 1..];
        Answer(replies[i]);
        i := i + 1;
      }
    }

    method Answer(call: Call)
      requires mayUpload ==> nextBundleData.None?
      modifies this`nextBundleData, this`mayUpload, this`mayRetrieve, this`exitRequested, this`accepted, this`returned,
               events
      ensures Now() == if Allowed(old(Now()), call) then Invoke(old(Now()), call) else old(Now())
      ensures mayUpload ==> nextBundleData.None?
    {
      match call
      case UploadBundle(id) =>
        if mayUpload {
          UploadBundle(id);
        }
      case RetrieveLastUploadedBundle =>
        if mayRetrieve {
          var _ := RetrieveLastUploadedBundle();
        }
      case FinishAndExit =>
        if mayUpload {
          FinishAndExit();
        }
    }

    // -------------------------------------------------------------------------------------------
    // Handlers

    method HandleReopenConnection()
      requires currentBundleData.Some? ==> nextBundleData.None?
      requires !link.open
      modifies this`nextBundleData, this`currentBundleData, this`link, events
      ensures Now() == ReopenConnection(old(Now()))
    {
      if currentBundleData.Some? {
        nextBundleData := currentBundleData;
        currentBundleData := None;
        link := link.(attemptedCreation := false);
      }
      events.CreateExternalEventCallback(ConnectionReady);
    }

    /** The assert that an attempt to create the vault succeeded can fail; see `vaultFailed`. */
    method HandleGetVaultDescription()
      modifies this`vaultFailed, events
      ensures Now() == GetVaultDescription(old(Now()))
    {
      if !link.open {
        events.PostEvent(ConnectionClosed);
        return;
      }
      vaultFailed := vaultFailed || (link.attemptedCreation && !link.created);
      events.CreateExternalEventCallback(VaultDescriptionReady);
    }

    method HandleInspectVaultDescription()
      modifies this`link, events
      ensures Now() == InspectVaultDescription(old(Now()))
    {
      if !link.open || !link.succeeded {
        link := link.(open := false);
        events.PostEvent(ConnectionClosed);
        return;
      }
      if link.vaultFound {
        events.PostEvent(VaultOk);
      } else {
        events.PostEvent(VaultMissing);
      }
    }

    /** So can the assert that the vault is created once. */
    method HandleCreateVault()
      modifies this`vaultFailed, this`link, events
      ensures Now() == CreateVault(old(Now()))
    {
      if !link.open || !link.succeeded {
        link := link.(open := false);
        events.PostEvent(ConnectionClosed);
        return;
      }
      vaultFailed := vaultFailed || link.attemptedCreation;
      link := link.(attemptedCreation := true);
      events.CreateExternalEventCallback(VaultCreated);
    }

    method HandleWaitForInput()
      modifies events
      ensures Now() == WaitForInput(old(Now()))
    {
      if !exitRequested {
        events.SetIdle(true);
      }
    }

    method HandleInspectNextBundle()
      modifies this`nextBundleData, this`currentBundleData, events
      ensures Now() == InspectNextBundle(old(Now()))
    {
      currentBundleData := None;
      if nextBundleData.Some? {
        currentBundleData := nextBundleData;
        nextBundleData := None;
        events.PostEvent(NewBundleReady);
      } else if exitRequested {
        events.PostEvent(FlushForced);
      } else {
        events.PostEvent(NoBundlePending);
      }
    }

    /** The assert that the bundle has no id from the server can fail; see `retryFailed`. */
    method HandleStartUpload()
      requires currentBundleData.Some?
      modifies this`retryFailed, events
      ensures Now() == StartUpload(old(Now()))
    {
      if !link.open {
        events.PostEvent(ConnectionClosed);
        return;
      }
      retryFailed := retryFailed || currentBundleData.value.serverId != "";
      events.CreateExternalEventCallback(UploadCompleted);
    }

    method HandleRecordUpload()
      requires currentBundleData.Some?
      modifies this`link, this`recorded, events
      ensures Now() == RecordUpload(old(Now()))
    {
      if !link.open || !link.succeeded || currentBundleData.value.serverId == "" {
        link := link.(open := false);
        events.PostEvent(ConnectionClosed);
        return;
      }
      recorded := recorded + [currentBundleData.value.id];
      events.CreateExternalEventCallback(UploadRecorded);
    }

    method HandleDeleteBundle()
      requires currentBundleData.Some?
      modifies this`deleted, events
      ensures Now() == DeleteBundle(old(Now()))
    {
      deleted := deleted + [currentBundleData.value.id];
      events.PostEvent(BundleDeleted);
    }

    method HandleExecuteBundleUploadedCallback(replies: seq<Call>)
      requires nextBundleData.None?
      modifies this`nextBundleData, this`mayUpload, this`mayRetrieve, this`exitRequested, this`accepted, this`returned,
               events
      ensures Now() == ExecuteBundleUploadedCallback(old(Now()), replies)
    {
      mayUpload, mayRetrieve := true, true;
      CallBackClient(replies);
      events.SetIdle(true);
    }

    method HandleCleanUp()
      modifies this`link, events
      ensures Now() == CleanUp(old(Now()))
    {
      link := link.(open := false);
      events.SetIdle(false);
    }

    // -------------------------------------------------------------------------------------------
    // Running

    /** A network or database operation finishes and invokes its callback. */
    method Complete(callback: nat, delivery: Delivery)
      requires Enabled(Now(), UploadModel.Complete(callback, delivery))
      modifies this`link, this`currentBundleData, events
      ensures Now() == Next(old(Now()), UploadModel.Complete(callback, delivery))
    {
      var event := events.outstanding[callback];
      if event == ConnectionReady {
        link := link.(open := delivery.succeeded);
      } else if event == VaultDescriptionReady {
        link := link.(succeeded := delivery.succeeded, vaultFound := delivery.vaultFound);
      } else if event == VaultCreated {
        link := link.(succeeded := delivery.succeeded, created := delivery.succeeded);
      } else if event == UploadCompleted {
        link := link.(succeeded := delivery.succeeded);
        if currentBundleData.Some? {
          currentBundleData := Some(currentBundleData.value.(serverId := if delivery.succeeded then delivery.serverId else ""));
        }
      }
      events.InvokeCallback(callback);
    }

    /** The transition table's rows for the connection and the vault. */
    method DispatchVault(event: Event, replies: seq<Call>)
      requires Needs(Now(), event) && AboutVault(event)
      modifies this, events
      ensures Now() == Handle(old(Now()), event, replies)
    {
      VaultRows(Now(), event, replies);
      hide ReopenConnection, GetVaultDescription, InspectVaultDescription, CreateVault, Handle;
      if event == ConnectionClosed {
        HandleReopenConnection();
        state := WaitForConnection;
      } else if event == VaultDescriptionReady {
        HandleInspectVaultDescription();
        state := HaveVaultDescription;
      } else if event == VaultMissing {
        HandleCreateVault();
        state := WaitForVaultCreation;
      } else {
        HandleGetVaultDescription();
        state := WaitForVaultDescription;
      }
    }

    /** The transition table's row when there is no bundle. */
    method DispatchNoBundle(replies: seq<Call>)
      requires Needs(Now(), NoBundlePending)
      modifies this, events
      ensures Now() == Handle(old(Now()), NoBundlePending, replies)
    {
      hide WaitForInput;
      HandleWaitForInput();
      state := WaitForNewBundle;
    }

    /** The transition table's row for the exit. */
    method DispatchFlush(replies: seq<Call>)
      requires Needs(Now(), FlushForced)
      modifies this, events
      ensures Now() == Handle(old(Now()), FlushForced, replies)
    {
      hide CleanUp;
      HandleCleanUp();
      state := Done;
    }

    /** The transition table's rows for taking the next bundle. */
    method DispatchNextBundle(event: Event, replies: seq<Call>)
      requires Needs(Now(), event) && AboutNextBundle(state, event)
      modifies this, events
      ensures Now() == Handle(old(Now()), event, replies)
    {
      hide InspectNextBundle;
      HandleInspectNextBundle();
      state := ReadyToUpload;
    }

    /** The transition table's rows for uploading a bundle. */
    method DispatchUpload(event: Event, replies: seq<Call>)
      requires Needs(Now(), event) && AboutUpload(event)
      modifies this, events
      ensures Now() == Handle(old(Now()), event, replies)
    {
      hide StartUpload, RecordUpload, DeleteBundle, ExecuteBundleUploadedCallback, ReopenConnection;
      if event == NewBundleReady {
        HandleStartUpload();
        state := WaitForUploadToComplete;
      } else if event == UploadCompleted {
        HandleRecordUpload();
        state := WaitForUploadToRecord;
      } else if event == UploadRecorded {
        HandleDeleteBundle();
        state := WaitForBundleToDelete;
      } else {
        HandleExecuteBundleUploadedCallback(replies);
        state := WaitForUpdatedBundleRetrieval;
      }
    }

    method Dispatch(event: Event, replies: seq<Call>)
      requires Needs(Now(), event)
      modifies this, events
      ensures Now() == Handle(old(Now()), event, replies)
    {
      EveryRowIsDispatched(Now(), event);
      hide Handle, Needs;
      if AboutVault(event) {
        DispatchVault(event, replies);
      } else if AboutNextBundle(state, event) {
        DispatchNextBundle(event, replies);
      } else if event == NoBundlePending {
        DispatchNoBundle(replies);
      } else if event == FlushForced {
        DispatchFlush(replies);
      } else {
        DispatchUpload(event, replies);
      }
    }

    /** Runs the next event; `done` tells whether the done callback fires. A NewBundlePending that is not
        waited for is dropped. The other asserts hold because of the invariant, which is kept. */
    method RunNextEvent(replies: seq<Call>) returns (done: bool)
      requires UploadProofs.Inv(Now()) && events.tasks != []
      modifies this, events
      ensures Now() == Next(old(Now()), UploadModel.RunNextEvent(replies))
      ensures UploadProofs.Inv(Now())
      ensures done <==> Now().loop.IsDone()
    {
      hide UploadProofs.Inv, Handle, Needs;
      UploadProofs.StepKeeps(Now(), UploadModel.RunNextEvent(replies));
      NeedsAreMet(Now());
      DropsPending(Now(), replies);
      var next := events.BeginNextEvent();
      if next[0] != NewBundlePending || state == WaitForNewBundle {
        Dispatch(next[0], replies);
      }
      done := events.EndEvent();
    }
  }

  predicate AboutVault(event: Event) {
    event in {ConnectionClosed, ConnectionReady, VaultDescriptionReady, VaultMissing, VaultCreated}
  }

  predicate AboutNextBundle(state: State, event: Event) {
    event == VaultOk || event == UpdatedBundleRetrieved || (event == NewBundlePending && state == WaitForNewBundle)
  }

  predicate AboutUpload(event: Event) {
    event in {NewBundleReady, UploadCompleted, UploadRecorded, BundleDeleted}
  }

  /** What the asserts of an event's handler demand, and that it has a transition. */
  ghost predicate Needs(m: Machine, e: Event) {
    && !m.violated
    && (e == ConnectionClosed ==> !m.link.open && (m.slots.current.None? || m.slots.next.None?))
    && match m.state
       case WaitForConnection => e == ConnectionReady
       case WaitForVaultDescription => e == ConnectionClosed || e == VaultDescriptionReady
       case HaveVaultDescription => e == ConnectionClosed || e == VaultOk || e == VaultMissing
       case WaitForVaultCreation => e == ConnectionClosed || e == VaultCreated
       case WaitForNewBundle => e == NewBundlePending
       case ReadyToUpload =>
         || e == NoBundlePending || e == FlushForced
         || (e == NewBundleReady && m.slots.current.Some?)
       case WaitForUploadToComplete => e == ConnectionClosed || (e == UploadCompleted && m.slots.current.Some?)
       case WaitForUploadToRecord => e == ConnectionClosed || (e == UploadRecorded && m.slots.current.Some?)
       case WaitForBundleToDelete => e == BundleDeleted && m.slots.next.None?
       case WaitForUpdatedBundleRetrieval => e == UpdatedBundleRetrieved
       case _ => false
  }

  lemma VaultRows(m: Machine, e: Event, replies: seq<Call>)
    requires Needs(m, e) && AboutVault(e)
    ensures Handle(m, e, replies) ==
            if e == ConnectionClosed then ReopenConnection(m).To(WaitForConnection)
            else if e == VaultDescriptionReady then InspectVaultDescription(m).To(HaveVaultDescription)
            else if e == VaultMissing then CreateVault(m).To(WaitForVaultCreation)
            else GetVaultDescription(m).To(WaitForVaultDescription)
  {
    hide ReopenConnection, GetVaultDescription, InspectVaultDescription, CreateVault, WaitForInput, InspectNextBundle,
      StartUpload, RecordUpload, DeleteBundle, ExecuteBundleUploadedCallback, CleanUp;
  }

  /** The invariant gives every handler what its asserts demand. */
  lemma NeedsAreMet(m: Machine)
    requires UploadProofs.Inv(m) && m.loop.tasks != []
    ensures m.loop.queue != []
    ensures m.loop.queue[0] != NewBundlePending || m.state == WaitForNewBundle ==>
              Needs(m.(loop := m.loop.Begin()), m.loop.queue[0])
  {
    hide UploadProofs.Others, UploadProofs.Noticed, UploadProofs.PendingIsInternal;
    UploadProofs.BeginPops(m.loop);
  }

  lemma EveryRowIsDispatched(m: Machine, e: Event)
    requires Needs(m, e)
    ensures AboutVault(e) || AboutNextBundle(m.state, e) || e == NoBundlePending || e == FlushForced || AboutUpload(e)
  {
  }

  lemma DropsPending(m: Machine, replies: seq<Call>)
    ensures m.state != WaitForNewBundle ==> Handle(m, NewBundlePending, replies) == m
    ensures m.loop.tasks != [] && m.state != WaitForNewBundle ==>
              Handle(m.(loop := m.loop.Begin()), NewBundlePending, replies) == m.(loop := m.loop.Begin())
  {
  }
}
