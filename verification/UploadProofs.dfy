// The upload state machine's invariant, kept by every step, and what follows from it.

module UploadProofs {
  import opened Common
  import EventLoop
  import opened UploadModel

  // ---------------------------------------------------------------------------------------------
  // Events on their way

  /** The queue without the NewBundlePending events, which may come at any time. */
  function Others(q: seq<Event>): seq<Event> {
    if q == [] then [] else (if q[0] == NewBundlePending then [] else [q[0]]) + Others(q[1..])
  }

  lemma {:induction false} OthersSnoc(q: seq<Event>, e: Event)
    ensures Others(q + [e]) == Others(q) + if e == NewBundlePending then [] else [e]
  {
    if q == [] {
      assert q + [e] == [e];
    } else {
      var first := if q[0] == NewBundlePending then [] else [q[0]];
      var last := if e == NewBundlePending then [] else [e];
      assert (q + [e])[0] == q[0] && (q + [e])[1..] == q[1..] + [e];
      OthersSnoc(q[1..], e);
      assert first + (Others(q[1..]) + last) == first + Others(q[1..]) + last;
    }
  }

  /** The one other event: queued, or to be delivered by an outstanding callback. */
  function Token(l: EventLoop.Loop<Event>): Option<Event> {
    if Others(l.queue) != [] then Some(Others(l.queue)[0])
    else if l.outstanding != [] then Some(l.outstanding[0])
    else None
  }

  // ---------------------------------------------------------------------------------------------
  // Slots

  /** How far the bundle in `current` has come. */
  datatype Stage = Unrecorded | Recorded | Deleted | HandedBack

  function AllButLast(s: seq<nat>): seq<nat> {
    if s == [] then [] else s[..|s| - 1]
  }

  function Held(b: Option<Bundle>): seq<nat> {
    if b.Some? then [b.value.id] else []
  }

  /** Every accepted bundle was recorded once, in order, or is held in one slot. */
  ghost predicate Kept(sl: Slots, stage: Stage) {
    && sl.accepted == sl.recorded + (if stage.Unrecorded? then Held(sl.current) else []) + Held(sl.next)
    && (!stage.Unrecorded? ==>
          sl.current.Some? && sl.recorded != [] && sl.recorded[|sl.recorded| - 1] == sl.current.value.id)
    && sl.deleted == (if stage.Recorded? then AllButLast(sl.recorded) else sl.recorded)
    && sl.returned == (if stage.Recorded? || stage.Deleted? then AllButLast(sl.recorded) else sl.recorded)
  }

  ghost predicate Empty(sl: Slots) {
    Kept(sl, Unrecorded) && sl.current.None?
  }

  /** A bundle is being uploaded and no other waits. */
  ghost predicate Busy(m: Machine, stage: Stage) {
    Kept(m.slots, stage) && m.slots.current.Some? && m.slots.next.None? && !m.mayUpload && !m.exitRequested
  }

  /** A waiting bundle or an exit request will be noticed: the last queued event says so. */
  ghost predicate Noticed(m: Machine) {
    m.slots.next.Some? || m.exitRequested ==>
      m.loop.queue != [] && m.loop.queue[|m.loop.queue| - 1] == NewBundlePending
  }

  /** What holds in each state with event `e` on its way; `delivered`: it is in the queue. */
  ghost predicate At(m: Machine, e: Option<Event>, delivered: bool) {
    match m.state
    case WaitForConnection => e == Some(ConnectionReady) && Empty(m.slots)
    case WaitForVaultDescription =>
      Empty(m.slots) && (e == Some(ConnectionClosed) || e == Some(VaultDescriptionReady))
    case HaveVaultDescription =>
      Empty(m.slots) && (e == Some(ConnectionClosed) || e == Some(VaultOk) || e == Some(VaultMissing))
    case WaitForVaultCreation =>
      Empty(m.slots) && (e == Some(ConnectionClosed) || (e == Some(VaultCreated) && m.link.attemptedCreation))
    case ReadyToUpload =>
      && delivered
      && (match e
          case Some(NoBundlePending) => Empty(m.slots) && Noticed(m)
          case Some(NewBundleReady) => Busy(m, Unrecorded)
          case Some(FlushForced) => Empty(m.slots) && m.slots.next.None? && m.exitRequested
          case _ => false)
    case WaitForNewBundle =>
      e == None && Empty(m.slots) && Noticed(m) && (m.exitRequested || m.loop.idle)
    case WaitForUploadToComplete =>
      Busy(m, Unrecorded) && (e == Some(UploadCompleted) || e == Some(ConnectionClosed))
    case WaitForUploadToRecord =>
      || (e == Some(UploadRecorded) && Busy(m, Recorded))
      || (e == Some(ConnectionClosed) && Busy(m, Unrecorded))
    case WaitForBundleToDelete => e == Some(BundleDeleted) && Busy(m, Deleted)
    case BundleFinished => false
    case WaitForUpdatedBundleRetrieval =>
      || (e == None && Kept(m.slots, Deleted) && m.mayRetrieve && m.loop.idle)
      || (e == Some(UpdatedBundleRetrieved) && Kept(m.slots, HandedBack))
    case Done => e == None && Empty(m.slots) && m.slots.next.None? && m.exitRequested
  }

  /** A NewBundlePending was posted by the machine's own methods, not by an external callback. */
  ghost predicate PendingIsInternal(q: seq<Event>, tasks: seq<bool>) {
    forall i :: 0 <= i < |q| && i < |tasks| && q[i] == NewBundlePending ==> !tasks[i]
  }

  ghost predicate Controlled(m: Machine) {
    && m.loop.Valid() && PendingIsInternal(m.loop.queue, m.loop.tasks)
    && |Others(m.loop.queue)| + |m.loop.outstanding| <= 1
    && (m.slots.next.Some? || m.exitRequested ==> !m.mayUpload)
    && (m.exitRequested ==> m.slots.next.None?)
    && (m.mayRetrieve ==> m.state == WaitForUpdatedBundleRetrieval && Token(m.loop).None?)
    && !m.violated
  }

  ghost predicate Inv(m: Machine) {
    && Controlled(m) && At(m, Token(m.loop), Others(m.loop.queue) != [])
    && (Token(m.loop) == Some(ConnectionClosed) ==> !m.link.open)
  }

  lemma InitialInv()
    ensures Inv(NewMachine())
  {
    assert EventLoop.Externals([]) == 0;
  }

  // ---------------------------------------------------------------------------------------------
  // Handlers

  /** The machine as the handler of the one other event finds it. */
  ghost predicate Running(m: Machine) {
    && m.loop.Valid() && PendingIsInternal(m.loop.queue, m.loop.tasks)
    && Others(m.loop.queue) == [] && m.loop.outstanding == []
    && (m.slots.next.Some? || m.exitRequested ==> !m.mayUpload)
    && (m.exitRequested ==> m.slots.next.None?)
    && !m.mayRetrieve && !m.violated
  }

  lemma OneTokenMore(l: EventLoop.Loop<Event>, e: Event)
    requires l.Valid() && Others(l.queue) == [] && l.outstanding == [] && e != NewBundlePending
    ensures PendingIsInternal(l.queue, l.tasks) ==>
              && PendingIsInternal(l.Post(e).queue, l.Post(e).tasks)
              && PendingIsInternal(l.CreateCallback(e).queue, l.CreateCallback(e).tasks)
    ensures l.Post(e).Valid() && Others(l.Post(e).queue) == [e] && l.Post(e).outstanding == []
    ensures l.CreateCallback(e).Valid() && Others(l.CreateCallback(e).queue) == [] && l.CreateCallback(e).outstanding == [e]
  {
    EventLoop.ExternalsSnoc(l.tasks, false);
    OthersSnoc(l.queue, e);
  }

  lemma ReopenConnectionKeeps(m: Machine)
    requires Running(m)
    requires (Empty(m.slots) || Busy(m, Unrecorded)) && !m.link.open
    ensures Inv(ReopenConnection(m).To(WaitForConnection))
  {
    hide Kept, Others, PendingIsInternal;
    OneTokenMore(m.loop, ConnectionReady);
    if m.slots.current.Some? {
      PutBack(m.slots);
    }
  }

  /** The bundle whose upload failed is the next one again. */
  lemma PutBack(sl: Slots)
    requires Kept(sl, Unrecorded) && sl.next.None?
    ensures Kept(sl.(next := sl.current, current := None), Unrecorded)
  {
  }

  lemma TakeNext(sl: Slots)
    requires Empty(sl) || Kept(sl, HandedBack)
    ensures Kept(sl.(current := sl.next, next := None), Unrecorded)
  {
    assert sl.recorded + [] == sl.recorded;
    assert sl.recorded + Held(sl.next) + [] == sl.recorded + [] + Held(sl.next);
  }

  lemma Record(sl: Slots)
    requires Kept(sl, Unrecorded) && sl.current.Some? && sl.next.None?
    ensures Kept(sl.(recorded := sl.recorded + [sl.current.value.id]), Recorded)
  {
    assert AllButLast(sl.recorded + [sl.current.value.id]) == sl.recorded;
  }

  lemma KeptCurrent(sl: Slots, stage: Stage)
    requires Kept(sl, stage) && !stage.Unrecorded?
    ensures sl.current.Some?
  {
  }

  lemma Delete(sl: Slots)
    requires Kept(sl, Recorded)
    ensures Kept(sl.(deleted := sl.deleted + [sl.current.value.id]), Deleted)
  {
  }

  lemma GetVaultDescriptionKeeps(m: Machine)
    requires Running(m) && Empty(m.slots)
    ensures Inv(GetVaultDescription(m).To(WaitForVaultDescription))
  {
    hide Kept, Others, PendingIsInternal;
    OneTokenMore(m.loop, if m.link.open then VaultDescriptionReady else ConnectionClosed);
  }

  lemma InspectVaultDescriptionKeeps(m: Machine)
    requires Running(m) && Empty(m.slots)
    ensures Inv(InspectVaultDescription(m).To(HaveVaultDescription))
  {
    hide Kept, Others, PendingIsInternal;
    OneTokenMore(m.loop, if !m.link.open || !m.link.succeeded then ConnectionClosed
                         else if m.link.vaultFound then VaultOk else VaultMissing);
  }

  lemma CreateVaultKeeps(m: Machine)
    requires Running(m) && Empty(m.slots)
    ensures Inv(CreateVault(m).To(WaitForVaultCreation))
  {
    hide Kept, Others, PendingIsInternal;
    if !m.link.open || !m.link.succeeded {
      OneTokenMore(m.loop, ConnectionClosed);
    } else {
      OneTokenMore(m.loop, VaultCreated);
    }
  }

  lemma WaitForInputKeeps(m: Machine)
    requires Running(m) && Empty(m.slots) && Noticed(m)
    ensures Inv(WaitForInput(m).To(WaitForNewBundle))
  {
    hide Kept, PendingIsInternal;
  }

  lemma TakesNextBundle(m: Machine)
    requires Running(m) && (Empty(m.slots) || Kept(m.slots, HandedBack)) && m.slots.next.Some?
    ensures Inv(InspectNextBundle(m).To(ReadyToUpload))
  {
    hide Kept, Others, PendingIsInternal, Noticed;
    TakeNext(m.slots);
    OneTokenMore(m.loop, NewBundleReady);
  }

  lemma FindsNoBundle(m: Machine)
    requires Running(m) && (Empty(m.slots) || Kept(m.slots, HandedBack)) && m.slots.next.None?
    ensures Inv(InspectNextBundle(m).To(ReadyToUpload))
  {
    hide Kept, Others, PendingIsInternal, Busy;
    TakeNext(m.slots);
    OneTokenMore(m.loop, if m.exitRequested then FlushForced else NoBundlePending);
  }

  /** The next bundle becomes the current one, whose work is over. */
  lemma InspectNextBundleKeeps(m: Machine)
    requires Running(m) && (Empty(m.slots) || Kept(m.slots, HandedBack))
    ensures Inv(InspectNextBundle(m).To(ReadyToUpload))
  {
    hide *;
    if m.slots.next.Some? {
      TakesNextBundle(m);
    } else {
      FindsNoBundle(m);
    }
  }

  lemma StartUploadKeeps(m: Machine)
    requires Running(m) && Busy(m, Unrecorded)
    ensures Inv(StartUpload(m).To(WaitForUploadToComplete))
  {
    hide Kept, Others, PendingIsInternal;
    OneTokenMore(m.loop, if m.link.open then UploadCompleted else ConnectionClosed);
  }

  lemma RecordUploadKeeps(m: Machine)
    requires Running(m) && Busy(m, Unrecorded)
    ensures Inv(RecordUpload(m).To(WaitForUploadToRecord))
  {
    hide Kept, Others, PendingIsInternal;
    Record(m.slots);
    OneTokenMore(m.loop, ConnectionClosed);
    OneTokenMore(m.loop, UploadRecorded);
  }

  lemma DeleteBundleKeeps(m: Machine)
    requires Running(m) && Busy(m, Recorded)
    ensures Inv(DeleteBundle(m).To(WaitForBundleToDelete))
  {
    hide Kept, PendingIsInternal;
    KeptCurrent(m.slots, Recorded);
    Delete(m.slots);
    OneTokenMore(m.loop, BundleDeleted);
  }

  lemma CleanUpKeeps(m: Machine)
    requires Running(m) && Empty(m.slots) && m.slots.next.None? && m.exitRequested
    ensures Inv(CleanUp(m).To(Done))
  {
    hide Kept, PendingIsInternal;
  }

  lemma Accept(sl: Slots, stage: Stage, id: nat)
    requires Kept(sl, stage) && sl.next.None?
    ensures Kept(sl.(next := Some(Bundle(id, "")), accepted := sl.accepted + [id]), stage)
  {
  }

  lemma HandBack(sl: Slots)
    requires Kept(sl, Deleted)
    ensures Kept(sl.(returned := sl.returned + Held(sl.current)), HandedBack)
  {
  }

  /** The queue after a client call. */
  lemma Posted(l: EventLoop.Loop<Event>, e: Event)
    requires l.Valid()
    ensures PendingIsInternal(l.queue, l.tasks) ==> PendingIsInternal(l.Post(e).queue, l.Post(e).tasks)
    ensures l.Post(e).Valid() && l.Post(e).outstanding == l.outstanding
    ensures Others(l.Post(e).queue) == Others(l.queue) + if e == NewBundlePending then [] else [e]
    ensures l.Post(e).queue != [] && l.Post(e).queue[|l.Post(e).queue| - 1] == e
  {
    EventLoop.ExternalsSnoc(l.tasks, false);
    OthersSnoc(l.queue, e);
  }

  lemma UploadBundleKeeps(m: Machine, id: nat)
    requires Inv(m) && m.mayUpload
    ensures Inv(Invoke(m, UploadBundle(id)))
  {
    var n := Invoke(m, UploadBundle(id));
    BundleAccepted(m, id);
    assert Controlled(n) && Token(n.loop) == Token(m.loop) && Others(n.loop.queue) == Others(m.loop.queue);
    hide Controlled, Kept, Others, Token;
    forall stage | Kept(m.slots, stage) ensures Kept(n.slots, stage) {
      Accept(m.slots, stage, id);
    }
    assert n.state == m.state && n.link == m.link && n.slots.current == m.slots.current && n.loop.idle == m.loop.idle;
    assert n.mayRetrieve == m.mayRetrieve && n.exitRequested == m.exitRequested;
    hide Invoke;
    match m.state
    case ReadyToUpload =>
    case WaitForNewBundle =>
    case WaitForUpdatedBundleRetrieval =>
    case _ =>
  }

  lemma BundleAccepted(m: Machine, id: nat)
    requires Controlled(m) && m.mayUpload
    ensures var n := Invoke(m, UploadBundle(id));
            && Controlled(n) && Token(n.loop) == Token(m.loop) && Others(n.loop.queue) == Others(m.loop.queue)
            && n.loop.queue != [] && n.loop.queue[|n.loop.queue| - 1] == NewBundlePending
            && n.loop.idle == m.loop.idle && m.slots.next.None?
  {
    hide Others, PendingIsInternal;
    Posted(m.loop, NewBundlePending);
    assert Others(m.loop.queue) + [] == Others(m.loop.queue);
  }

  lemma FinishAndExitKeeps(m: Machine)
    requires Inv(m) && m.mayUpload
    ensures Inv(Invoke(m, FinishAndExit))
  {
    hide Kept, Others, PendingIsInternal;
    Posted(m.loop, NewBundlePending);
    assert Others(m.loop.queue) + [] == Others(m.loop.queue);
  }

  lemma RetrieveKeeps(m: Machine)
    requires Inv(m) && m.mayRetrieve
    ensures Inv(Invoke(m, RetrieveLastUploadedBundle))
  {
    hide Kept, Others, PendingIsInternal;
    HandBack(m.slots);
    Posted(m.loop, UpdatedBundleRetrieved);
  }

  lemma InvokeKeeps(m: Machine, call: Call)
    requires Inv(m) && Allowed(m, call)
    ensures Inv(Invoke(m, call)) && Invoke(m, call).state == m.state && Invoke(m, call).loop.idle == m.loop.idle
  {
    hide Inv;
    match call
    case UploadBundle(id) => UploadBundleKeeps(m, id);
    case RetrieveLastUploadedBundle => RetrieveKeeps(m);
    case FinishAndExit => FinishAndExitKeeps(m);
  }

  lemma {:induction false} InvokeAllKeeps(m: Machine, calls: seq<Call>)
    requires Inv(m) && m.loop.idle
    ensures Inv(InvokeAll(m, calls)) && InvokeAll(m, calls).state == m.state && InvokeAll(m, calls).loop.idle
    decreases |calls|
  {
    hide Inv, Invoke, Allowed;
    if calls != [] {
      if Allowed(m, calls[0]) {
        InvokeKeeps(m, calls[0]);
        InvokeAllKeeps(Invoke(m, calls[0]), calls[1..]);
      } else {
        InvokeAllKeeps(m, calls[1..]);
      }
    }
  }

  lemma {:induction false} InvokeAllCommutes(m: Machine, calls: seq<Call>, next: State)
    ensures InvokeAll(Resting(m, next), calls) == Resting(InvokeAll(m, calls), next)
    decreases |calls|
  {
    hide Invoke, Allowed, Resting;
    if calls != [] {
      InvokeCommutes(m, calls[0], next);
      if Allowed(m, calls[0]) {
        InvokeAllCommutes(Invoke(m, calls[0]), calls[1..], next);
      } else {
        InvokeAllCommutes(m, calls[1..], next);
      }
    }
  }

  /** In another state, and idle. */
  function Resting(m: Machine, next: State): Machine {
    m.To(next).(loop := m.loop.SetIdle(true))
  }

  lemma PostCommutes(m: Machine, e: Event, next: State)
    ensures Resting(m, next).Post(e) == Resting(m.Post(e), next)
  {
  }

  lemma InvokeCommutes(m: Machine, call: Call, next: State)
    ensures Invoke(Resting(m, next), call) == Resting(Invoke(m, call), next)
    ensures Allowed(Resting(m, next), call) == Allowed(m, call)
  {
    match call
    case UploadBundle(id) =>
      PostCommutes(m.Assert(m.slots.next.None?)
                    .(mayUpload := false,
                      slots := m.slots.(next := Some(Bundle(id, "")), accepted := m.slots.accepted + [id])),
                   NewBundlePending, next);
    case RetrieveLastUploadedBundle =>
    case FinishAndExit => PostCommutes(m.(mayUpload := false, exitRequested := true), NewBundlePending, next);
  }

  lemma ExecuteBundleUploadedCallbackKeeps(m: Machine, replies: seq<Call>)
    requires Running(m) && Busy(m, Deleted)
    ensures Inv(ExecuteBundleUploadedCallback(m, replies).To(WaitForUpdatedBundleRetrieval))
  {
    hide Kept, InvokeAll, PendingIsInternal;
    var called := m.(mayUpload := true, mayRetrieve := true);
    var resting := called.To(WaitForUpdatedBundleRetrieval).(loop := m.loop.SetIdle(true));
    KeptCurrent(m.slots, Deleted);
    assert Inv(resting);
    InvokeAllKeeps(resting, replies);
    InvokeAllCommutes(called, replies, WaitForUpdatedBundleRetrieval);
  }

  /** Whatever event is next, its handler keeps the invariant. */
  lemma HandleKeeps(m: Machine, e: Event, replies: seq<Call>)
    requires Running(m) && At(m, Some(e), true) && e != NewBundlePending
    requires e == ConnectionClosed ==> !m.link.open
    ensures Inv(Handle(m, e, replies))
  {
    hide Inv, Others, Kept, Noticed, PendingIsInternal, ReopenConnection, GetVaultDescription, InspectVaultDescription,
      CreateVault, WaitForInput,
      InspectNextBundle, StartUpload, RecordUpload, DeleteBundle, ExecuteBundleUploadedCallback, CleanUp;
    if e == ConnectionClosed {
      ReopenConnectionKeeps(m);
    } else {
      match m.state
      case WaitForConnection => GetVaultDescriptionKeeps(m);
      case WaitForVaultDescription => InspectVaultDescriptionKeeps(m);
      case HaveVaultDescription =>
        if e == VaultOk { InspectNextBundleKeeps(m); } else { CreateVaultKeeps(m); }
      case WaitForVaultCreation => GetVaultDescriptionKeeps(m);
      case ReadyToUpload =>
        if e == NoBundlePending {
          WaitForInputKeeps(m);
        } else if e == NewBundleReady {
          StartUploadKeeps(m);
        } else {
          CleanUpKeeps(m);
        }
      case WaitForUploadToComplete => RecordUploadKeeps(m);
      case WaitForUploadToRecord => DeleteBundleKeeps(m);
      case WaitForBundleToDelete => ExecuteBundleUploadedCallbackKeeps(m, replies);
      case _ => InspectNextBundleKeeps(m);
    }
  }

  // ---------------------------------------------------------------------------------------------
  // Steps

  lemma BeginPops(l: EventLoop.Loop<Event>)
    requires l.Valid() && PendingIsInternal(l.queue, l.tasks) && l.tasks != [] && |Others(l.queue)| + |l.outstanding| <= 1
    ensures l.queue != [] && PendingIsInternal(l.Begin().queue, l.Begin().tasks)
    ensures l.queue[0] == NewBundlePending ==> l.Begin().idle == l.idle
    ensures l.Begin().Valid() && l.Begin().outstanding == l.outstanding
    ensures l.Begin().queue == l.queue[1..]
    ensures l.queue[0] == NewBundlePending ==> Others(l.Begin().queue) == Others(l.queue)
    ensures l.queue[0] != NewBundlePending ==>
              Others(l.queue) == [l.queue[0]] && Others(l.Begin().queue) == [] && l.outstanding == []
    ensures Others(l.Begin().queue) != [] ==> l.Begin().queue != []
  {
    EventLoop.StepKeeps(l, EventLoop.BeginStep);
  }

  lemma RunNextEventKeeps(m: Machine, replies: seq<Call>)
    requires Inv(m) && m.loop.tasks != []
    ensures Inv(Next(m, RunNextEvent(replies)))
  {
    hide Others, Kept, Handle, PendingIsInternal;
    BeginPops(m.loop);
    var begun := m.(loop := m.loop.Begin());
    if m.loop.queue[0] != NewBundlePending {
      assert Running(begun);
      assert At(begun, Some(m.loop.queue[0]), true);
      HandleKeeps(begun, m.loop.queue[0], replies);
    } else {
      PendingKeeps(m, replies);
    }
  }

  lemma PendingKeeps(m: Machine, replies: seq<Call>)
    requires Inv(m) && m.loop.queue != [] && m.loop.tasks != [] && m.loop.queue[0] == NewBundlePending
    ensures Inv(Handle(m.(loop := m.loop.Begin()), NewBundlePending, replies))
  {
    hide Others, Kept, InspectNextBundle, PendingIsInternal;
    BeginPops(m.loop);
    var begun := m.(loop := m.loop.Begin());
    if m.state == WaitForNewBundle {
      InspectNextBundleKeeps(begun);
    } else {
      PendingDropped(m);
    }
  }

  lemma PendingDropped(m: Machine)
    requires Inv(m) && m.loop.tasks != [] && m.loop.queue != [] && m.loop.queue[0] == NewBundlePending
    requires m.state != WaitForNewBundle
    ensures Inv(m.(loop := m.loop.Begin()))
    ensures Handle(m.(loop := m.loop.Begin()), NewBundlePending, []) == m.(loop := m.loop.Begin())
  {
    hide Others, Kept, PendingIsInternal;
    BeginPops(m.loop);
  }

  lemma InvokeDelivers(l: EventLoop.Loop<Event>, i: nat)
    requires l.Valid() && |Others(l.queue)| + |l.outstanding| <= 1 && i < |l.outstanding|
    requires l.outstanding[i] != NewBundlePending
    ensures PendingIsInternal(l.queue, l.tasks) ==> PendingIsInternal(l.Invoke(i).queue, l.Invoke(i).tasks)
    ensures i == 0 && l.Invoke(i).Valid() && l.Invoke(i).outstanding == [] && l.Invoke(i).idle == l.idle
    ensures Others(l.queue) == [] && Others(l.Invoke(i).queue) == [l.outstanding[i]]
  {
    EventLoop.StepKeeps(l, EventLoop.InvokeStep(i));
    OthersSnoc(l.queue, l.outstanding[i]);
    assert Others(l.queue) == [];
  }

  /** A delivery changes the connection and what is known of the current bundle, but not which bundle it is. */
  ghost predicate Delivered(m: Machine, e: Event, n: Machine) {
    && n == m.(link := n.link, slots := n.slots)
    && n.link.attemptedCreation == m.link.attemptedCreation && (e != ConnectionReady ==> n.link.open == m.link.open)
    && n.slots == m.slots.(current := n.slots.current)
    && n.slots.current.Some? == m.slots.current.Some?
    && (n.slots.current.Some? ==> n.slots.current.value.id == m.slots.current.value.id)
  }

  lemma DeliverDelivers(m: Machine, e: Event, d: Delivery)
    ensures Delivered(m, e, Deliver(m, e, d))
  {
  }

  lemma DeliveredKeeps(m: Machine, n: Machine, i: nat)
    requires Inv(m) && i < |m.loop.outstanding| && Delivered(m, m.loop.outstanding[i], n)
    ensures Inv(n.(loop := m.loop.Invoke(i)))
  {
    hide Others, Kept, PendingIsInternal;
    var e := m.loop.outstanding[i];
    assert Others(m.loop.queue) == [] && Token(m.loop) == Some(e);
    InvokeDelivers(m.loop, i);
    SameSlots(m.slots, n.slots);
    assert At(n.(loop := m.loop.Invoke(i)), Some(e), true);
  }

  lemma CompleteKeeps(m: Machine, i: nat, d: Delivery)
    requires Inv(m) && Enabled(m, Complete(i, d))
    ensures Inv(Next(m, Complete(i, d)))
  {
    hide Inv, Deliver, Delivered;
    DeliverDelivers(m, m.loop.outstanding[i], d);
    DeliveredKeeps(m, Deliver(m, m.loop.outstanding[i], d), i);
  }

  lemma SameSlots(sl: Slots, sl': Slots)
    requires sl' == sl.(current := sl'.current)
    requires sl.current.Some? == sl'.current.Some?
    requires sl.current.Some? ==> sl.current.value.id == sl'.current.value.id
    ensures forall stage :: Kept(sl', stage) == Kept(sl, stage)
  {
  }

  lemma DropKeeps(m: Machine)
    requires Inv(m)
    ensures Inv(m.Close())
  {
    hide Kept, Others, PendingIsInternal;
  }

  /** Main invariant: every step keeps it, whatever becomes of the connection, the vault and the uploads. */
  lemma StepKeeps(m: Machine, step: Step)
    requires Inv(m) && Enabled(m, step)
    ensures Inv(Next(m, step))
  {
    hide Inv, Invoke, Handle, Deliver;
    match step
    case ClientCall(call) => InvokeKeeps(m, call);
    case Complete(i, d) => CompleteKeeps(m, i, d);
    case ConnectionDrops => DropKeeps(m);
    case RunNextEvent(replies) => RunNextEventKeeps(m, replies);
  }

  lemma {:induction false} RunKeeps(m: Machine, steps: seq<Step>, m': Machine)
    requires Inv(m) && Runs(m, steps, m')
    ensures Inv(m')
    decreases |steps|
  {
    hide Inv, Next;
    if steps != [] {
      var last := |steps| - 1;
      var mid :| Runs(m, steps[..last], mid) && Enabled(mid, steps[last]) && m' == Next(mid, steps[last]);
      RunKeeps(m, steps[..last], mid);
      StepKeeps(mid, steps[last]);
    }
  }

  /** The states a machine can get into. */
  ghost predicate Reachable(m: Machine) {
    exists steps :: Runs(NewMachine(), steps, m)
  }

  lemma ReachableInv(m: Machine)
    requires Reachable(m)
    ensures Inv(m)
  {
    hide Inv, NewMachine;
    var steps :| Runs(NewMachine(), steps, m);
    InitialInv();
    RunKeeps(NewMachine(), steps, m);
  }

  // ---------------------------------------------------------------------------------------------
  // Main results

  /** Whether the bundle in `current` has been recorded. */
  predicate CurrentRecorded(m: Machine) {
    || m.state == WaitForBundleToDelete || m.state == WaitForUpdatedBundleRetrieval
    || (m.state == WaitForUploadToRecord && Token(m.loop) == Some(UploadRecorded))
  }

  /** No bundle is lost, duplicated or taken out of turn: the accepted bundles are the recorded ones, in
      order, and then the one not yet recorded bundle in hand and the one waiting, if any; before the
      client has back the last recorded bundle, the two slots are never both needed for unrecorded ones. */
  lemma BundlesAreKept(m: Machine)
    requires Reachable(m)
    ensures m.slots.accepted
         == m.slots.recorded + (if CurrentRecorded(m) then [] else Held(m.slots.current)) + Held(m.slots.next)
    ensures CurrentRecorded(m) || m.slots.current.None? || m.slots.next.None?
    ensures CurrentRecorded(m) ==>
              m.slots.current.Some? && m.slots.recorded != []
              && m.slots.recorded[|m.slots.recorded| - 1] == m.slots.current.value.id
  {
    hide Reachable, PendingIsInternal, Others, AllButLast;
    ReachableInv(m);
  }

  /** A bundle is handed back only after it was recorded and its file deleted; each is handed back and
      deleted at most once, in the order of recording. */
  lemma HandedBackOnlyWhenDone(m: Machine)
    requires Reachable(m)
    ensures m.slots.returned <= m.slots.deleted <= m.slots.recorded
    ensures |m.slots.recorded| <= |m.slots.returned| + 1
    ensures m.mayRetrieve ==>
              m.slots.current.Some? && m.slots.deleted == m.slots.recorded
              && m.slots.recorded == m.slots.returned + [m.slots.current.value.id]
  {
    hide Reachable, Others;
    ReachableInv(m);
  }

  /** No assert fails, those two about the vault's creation and the one about a retry set aside, and no event but
      a superfluous NewBundlePending meets a state without a transition for it. */
  lemma NothingUnexpected(m: Machine)
    requires Reachable(m)
    ensures !m.violated
  {
    hide Reachable, At;
    ReachableInv(m);
  }

  /** A machine that waits for bundles never sleeps on one, nor on an exit request: the event that will
      wake it is in the queue. */
  lemma NoBundleIsForgotten(m: Machine)
    requires Reachable(m) && m.state == WaitForNewBundle && (m.slots.next.Some? || m.exitRequested)
    ensures m.loop.queue != [] && m.loop.queue[|m.loop.queue| - 1] == NewBundlePending
    ensures m.loop.tasks != []
  {
    hide Reachable, PendingIsInternal, Others, Kept;
    ReachableInv(m);
  }

  /** When nothing is left to run, the machine waits for its client with both slots settled, or is done
      after an exit request with every accepted bundle recorded and handed back. */
  lemma RestsOnlyWhenSettled(m: Machine)
    requires Reachable(m) && m.loop.Quiet()
    ensures m.state == WaitForNewBundle || m.state == WaitForUpdatedBundleRetrieval || m.state == Done
    ensures m.state == WaitForUpdatedBundleRetrieval ==> m.mayRetrieve
    ensures m.state != WaitForUpdatedBundleRetrieval ==>
              m.slots.accepted == m.slots.recorded == m.slots.deleted == m.slots.returned
    ensures !m.loop.idle ==> m.state == Done
  {
    hide Reachable, AllButLast;
    ReachableInv(m);
    assert m.slots.recorded + [] + [] == m.slots.recorded;
  }
}
