/**
 * The WebUI's preference sync: what this browser adopts from an account and what it sends back, in
 * every interleaving of sign-in, sign-out, load replies in any order, edits and timer firings.
 */
module Prefs {
  import opened Base

  type Layout = set<string>

  /** A document: the collapsed-folder layout, if it holds one, and the remaining preferences. */
  datatype Doc = Doc(collapsed: Option<Layout>, rest: Option<int>)

  /**
   * What happened, in order. A load and a queueing name their session; a send names the queueing and
   * the firing of the timer it came from.
   */
  datatype Event =
    | LoadStarted(seqNo: nat, inSession: nat)
    | LoadSettled(seqNo: nat)
    | Adopted(seqNo: nat, doc: Doc)
    | SignedOut
    | Pressed
    | Queued(inSession: nat)
    | Fired(loading: Option<nat>)
    | Sent(doc: Doc, queuedAt: nat, firedAt: nat)

  // ------------------------------------------------------------------------------------------
  // Reading a history.

  function SignOuts(log: seq<Event>): nat {
    if log == [] then 0 else SignOuts(log[..|log| - 1]) + if log[|log| - 1].SignedOut? then 1 else 0
  }

  function Loads(log: seq<Event>): nat {
    if log == [] then 0 else Loads(log[..|log| - 1]) + if log[|log| - 1].LoadStarted? then 1 else 0
  }

  /** The newest load of the session that has not settled. */
  function InFlight(log: seq<Event>): Option<nat> {
    if log == [] then None
    else InFlightAfter(InFlight(log[..|log| - 1]), log[|log| - 1])
  }

  /** What an event makes of the load in flight. */
  function InFlightAfter(before: Option<nat>, e: Event): Option<nat> {
    match e
    case LoadStarted(s, _) => Some(s)
    case LoadSettled(s) => if before == Some(s) then None else before
    case SignedOut => None
    case _ => before
  }

  ghost predicate NoSignOutFrom(log: seq<Event>, a: int) {
    forall i :: 0 <= a <= i < |log| ==> !log[i].SignedOut?
  }

  ghost predicate NoLoadFrom(log: seq<Event>, a: int) {
    forall i :: 0 <= a <= i < |log| ==> !log[i].LoadStarted?
  }

  /** The load was started in this session, and none has been started since. */
  ghost predicate AskedHere(log: seq<Event>, j: int, seqNo: nat) {
    0 <= j < |log| && log[j].LoadStarted? && log[j].seqNo == seqNo && NoSignOutFrom(log, j) && NoLoadFrom(log, j + 1)
  }

  /** Since the last sign-out this browser has come by a layout, from the account or from a press. */
  ghost predicate LayoutHeld(log: seq<Event>, h: int) {
    && 0 <= h < |log| && NoSignOutFrom(log, h)
    && (log[h].Pressed? || (log[h].Adopted? && log[h].doc.collapsed.Some?))
  }

  ghost predicate SettledAfter(log: seq<Event>, f: int, seqNo: nat) {
    exists j :: 0 <= f < j < |log| && log[j] == LoadSettled(seqNo)
  }

  /** What may follow a history: the promises of the protocol. */
  ghost predicate Promised(log: seq<Event>, e: Event) {
    match e
    case LoadStarted(s, inSession) => s == Loads(log) + 1 && inSession == SignOuts(log)
    case Queued(inSession) => inSession == SignOuts(log)
    case Adopted(s, _) => exists j :: AskedHere(log, j, s)
    case Fired(loading) => loading == InFlight(log)
    case Sent(doc, q, f) =>
      && 0 <= q < f < |log| && log[q].Queued? && log[f].Fired?
      && NoSignOutFrom(log, q)
      && (forall i :: q < i < f ==> !log[i].Queued?)
      && (log[f].loading.Some? ==> SettledAfter(log, f, log[f].loading.value))
      && (doc.collapsed == Some({}) ==> exists h :: LayoutHeld(log, h))
    case _ => true
  }

  ghost predicate Good(log: seq<Event>) {
    log != [] ==> Good(log[..|log| - 1]) && Promised(log[..|log| - 1], log[|log| - 1])
  }

  // ------------------------------------------------------------------------------------------
  // Equal counts mean that nothing of the kind lies between.

  lemma {:induction false} SameSession(log: seq<Event>, a: nat)
    requires a <= |log|
    ensures SignOuts(log[..a]) <= SignOuts(log)
    ensures SignOuts(log[..a]) == SignOuts(log) <==> NoSignOutFrom(log, a)
  {
    if a < |log| {
      var init := log[..|log| - 1];
      SameSession(init, a);
      assert init[..a] == log[..a];
      assert NoSignOutFrom(log, a) <==> NoSignOutFrom(init, a) && !log[|log| - 1].SignedOut?;
    } else {
      assert log[..a] == log;
    }
  }

  lemma {:induction false} NoNewerLoad(log: seq<Event>, a: nat)
    requires a <= |log|
    ensures Loads(log[..a]) <= Loads(log)
    ensures Loads(log[..a]) == Loads(log) <==> NoLoadFrom(log, a)
  {
    if a < |log| {
      var init := log[..|log| - 1];
      NoNewerLoad(init, a);
      assert init[..a] == log[..a];
      assert NoLoadFrom(log, a) <==> NoLoadFrom(init, a) && !log[|log| - 1].LoadStarted?;
    } else {
      assert log[..a] == log;
    }
  }

  // ------------------------------------------------------------------------------------------
  // What a pending closure remembers, against the history.

  /** Load `s` was started at `at`, in session `askedIn`. */
  ghost predicate LoadOk(log: seq<Event>, s: nat, askedIn: nat, at: nat) {
    at < |log| && log[at] == LoadStarted(s, askedIn)
  }

  /** The timer was set at `at`, in session `queuedIn`, and not again since. */
  ghost predicate TimerOk(log: seq<Event>, queuedIn: nat, at: nat) {
    at < |log| && log[at] == Queued(queuedIn) && forall i :: at < i < |log| ==> !log[i].Queued?
  }

  /** A send waiting for load `on`: queued at `q`, its timer fired at `f`. */
  datatype Waiting = Waiting(queuedIn: nat, on: nat)

  ghost predicate WaitingOk(log: seq<Event>, w: Waiting, q: nat, f: nat) {
    && q < f < |log| && log[q] == Queued(w.queuedIn) && log[f] == Fired(Some(w.on))
    && forall i :: q < i < f ==> !log[i].Queued?
  }

  lemma PrefixKept(log: seq<Event>, e: Event, at: nat)
    requires at <= |log|
    ensures (log + [e])[..at] == log[..at]
  {
  }

  lemma HeldKept(log: seq<Event>, e: Event, h: int)
    requires LayoutHeld(log, h) && !e.SignedOut?
    ensures LayoutHeld(log + [e], h)
  {
  }

  lemma Counted(log: seq<Event>, e: Event)
    ensures SignOuts(log + [e]) == SignOuts(log) + if e.SignedOut? then 1 else 0
    ensures Loads(log + [e]) == Loads(log) + if e.LoadStarted? then 1 else 0
    ensures InFlight(log + [e]) == InFlightAfter(InFlight(log), e)
    ensures Good(log) && Promised(log, e) ==> Good(log + [e])
  {
    PrefixKept(log, e, |log|);
    assert log[..|log|] == log;
  }

  // ------------------------------------------------------------------------------------------
  // The module's variables, and what each step makes of them.

  datatype Reply = Failure | Answer(doc: Doc)

  /**
   * This browser's own values and token, the module's variables, and the continuations in flight:
   * loads by number with the session that asked, settled loads, and sends waiting for one.
   */
  datatype Vars = Vars(
    store: Doc, token: bool,
    supported: bool, saveTimer: Option<nat>, collapsedHeld: bool, loading: Option<nat>, loadSeq: nat, session: nat,
    loads: map<nat, nat>, settled: set<nat>, waiting: map<nat, Waiting>)
  {
    /** A reply counts only for the session that asked, and only if no newer load was started. */
    predicate Current(s: nat)
      requires s in loads
    {
      loads[s] == session && s == loadSeq
    }

    function Begun(): Vars {
      this.(loadSeq := loadSeq + 1, loads := loads[loadSeq + 1 := session], loading := Some(loadSeq + 1))
    }

    function Started(): Vars {
      if token then Begun() else this
    }

    /** Field by field: what the account does not say is kept. */
    function Adopted(doc: Doc): Vars {
      this.(
        store := Doc(if doc.collapsed.Some? then doc.collapsed else store.collapsed,
                     if doc.rest.Some? then doc.rest else store.rest),
        collapsedHeld := collapsedHeld || doc.collapsed.Some?)
    }

    function Settled(s: nat): Vars {
      this.(loads := loads - {s}, settled := settled + {s}, loading := if s == loadSeq then None else loading)
    }

    function Answered(s: nat, reply: Reply): Vars
      requires s in loads
    {
      var heard := if !Current(s) then this
                   else if reply.Failure? then this.(supported := false)
                   else this.Adopted(reply.doc).(supported := true);
      heard.Settled(s)
    }

    function SignedOut(): Vars {
      this.(saveTimer := None, supported := true, collapsedHeld := false, loading := None, session := session + 1)
    }

    predicate Saves() {
      supported && token
    }

    /** Set the timer, or set it again. */
    function Queued(): Vars {
      if Saves() then this.(saveTimer := Some(session)) else this
    }

    function Pressed(layout: Layout): Vars {
      this.(store := store.(collapsed := Some(layout)), collapsedHeld := true)
    }

    /** The document to send: an empty layout only when this browser holds one. */
    function CurrentDoc(): Doc {
      var layout := if store.collapsed.Some? then store.collapsed.value else {};
      Doc(if collapsedHeld || layout != {} then Some(layout) else None, store.rest)
    }

    /** Asked when a save is about to leave. */
    predicate MaySend(queuedIn: nat) {
      queuedIn == session && Saves()
    }

    /** The timer fires: the save waits for the load in flight, if there is one. */
    function Fired(k: nat): Vars
      requires saveTimer.Some?
    {
      this.(saveTimer := None,
            waiting := if loading.Some? then waiting[k := Waiting(saveTimer.value, loading.value)] else waiting)
    }

    function Resumed(k: nat): Vars {
      this.(waiting := waiting - {k})
    }

    /** What leaves when the timer fires: nothing while a load is in flight. */
    function TimerPut(): Option<Doc>
      requires saveTimer.Some?
    {
      if loading.None? && MaySend(saveTimer.value) then Some(CurrentDoc()) else None
    }

    /** What leaves when a save that waited goes on. */
    function ResumePut(k: nat): Option<Doc>
      requires k in waiting
    {
      if MaySend(waiting[k].queuedIn) then Some(CurrentDoc()) else None
    }
  }

  /** The module, its variables changed across asynchronous steps. */
  class PrefSync {
    var store: Doc
    var token: bool
    var supported: bool
    var saveTimer: Option<nat>
    var collapsedHeld: bool
    var loading: Option<nat>
    var loadSeq: nat
    var session: nat
    var loads: map<nat, nat>
    var settled: set<nat>
    var waiting: map<nat, Waiting>

    ghost function View(): Vars
      reads this
    {
      Vars(store, token, supported, saveTimer, collapsedHeld, loading, loadSeq, session, loads, settled, waiting)
    }

    constructor ()
      ensures View() == FIRST
    {
      store, token, supported, saveTimer := Doc(None, None), false, true, None;
      collapsedHeld, loading, loadSeq, session := false, None, 0, 0;
      loads, settled, waiting := map[], {}, map[];
    }

    method SetToken(held: bool)
      modifies this`token
      ensures View() == old(View()).(token := held)
    {
      token := held;
    }

    /** Ask for the signed-in account's document. */
    method LoadServerPrefs()
      modifies this`loadSeq, this`loads, this`loading
      ensures View() == old(View()).Started()
    {
      if !token {
        return;
      }
      loadSeq := loadSeq + 1;
      loads := loads[loadSeq := session];
      loading := Some(loadSeq);
    }

    method Adopt(doc: Doc)
      modifies this`store, this`collapsedHeld
      ensures View() == old(View()).Adopted(doc)
    {
      if doc.rest.Some? {
        store := store.(rest := doc.rest);
      }
      if doc.collapsed.Some? {
        store := store.(collapsed := doc.collapsed);
        collapsedHeld := true;
      }
    }

    /** A load's reply arrives, in whatever order. */
    method LoadAnswered(s: nat, reply: Reply)
      requires s in loads
      modifies this`store, this`collapsedHeld, this`supported, this`loading, this`loads, this`settled
      ensures View() == old(View()).Answered(s, reply)
    {
      var askedIn := loads[s];
      if askedIn == session && s == loadSeq {
        if reply.Answer? {
          Adopt(reply.doc);
          supported := true;
        } else {
          supported := false;
        }
      }
      if s == loadSeq {
        loading := None;
      }
      loads, settled := loads - {s}, settled + {s};
    }

    /** Sign-out: nothing pending outlives the session. */
    method ResetServerPrefs()
      modifies this`saveTimer, this`supported, this`collapsedHeld, this`loading, this`session
      ensures View() == old(View()).SignedOut()
    {
      saveTimer := None;
      supported := true;
      collapsedHeld := false;
      loading := None;
      session := session + 1;
    }

    method ScheduleSave()
      modifies this`saveTimer
      ensures View() == old(View()).Queued()
    {
      if !supported || !token {
        return;
      }
      saveTimer := Some(session);
    }

    /** Record any preference but the folder layout: here now, on the account shortly. */
    method SetPreference(value: int)
      modifies this`store, this`saveTimer
      ensures View() == old(View()).(store := old(store).(rest := Some(value))).Queued()
    {
      store := store.(rest := Some(value));
      ScheduleSave();
    }

    /** Record the collapsed folders, unless it is the very layout already stored. */
    method SetNodeTreeCollapsed(next: Layout, isStored: bool)
      modifies this`store, this`collapsedHeld, this`saveTimer
      ensures View() == if isStored then old(View()) else old(View()).Pressed(next).Queued()
    {
      if isStored {
        return;
      }
      store := store.(collapsed := Some(next));
      collapsedHeld := true;
      ScheduleSave();
    }

    /** The account-scoped document, if a save queued in `queuedIn` may still leave. */
    method Send(queuedIn: nat) returns (put: Option<Doc>)
      ensures put == if View().MaySend(queuedIn) then Some(View().CurrentDoc()) else None
    {
      if queuedIn != session || !supported || !token {
        return None;
      }
      var layout := if store.collapsed.Some? then store.collapsed.value else {};
      var doc := Doc(None, store.rest);
      if collapsedHeld || layout != {} {
        doc := doc.(collapsed := Some(layout));
      }
      return Some(doc);
    }

    /** The quiet period is over. `k` names the continuation, should the save have to wait. */
    method TimerFires(k: nat) returns (put: Option<Doc>)
      requires saveTimer.Some? && k !in waiting
      modifies this`saveTimer, this`waiting
      ensures View() == old(View()).Fired(k)
      ensures put == old(View()).TimerPut()
    {
      var queuedIn := saveTimer.value;
      saveTimer := None;
      if loading.Some? {
        waiting := waiting[k := Waiting(queuedIn, loading.value)];
        return None;
      }
      put := Send(queuedIn);
    }

    /** The load a save waited for has settled. */
    method Resume(k: nat) returns (put: Option<Doc>)
      requires k in waiting && waiting[k].on in settled
      modifies this`waiting
      ensures View() == old(View()).Resumed(k)
      ensures put == old(View()).ResumePut(k)
    {
      var queuedIn := waiting[k].queuedIn;
      waiting := waiting - {k};
      put := Send(queuedIn);
    }
  }

  const FIRST: Vars := Vars(Doc(None, None), false, true, None, false, None, 0, 0, map[], {}, map[])

  // ------------------------------------------------------------------------------------------
  // The variables beside their history. Each of the moves below adds one event.

  datatype World = World(
    v: Vars, log: seq<Event>,
    startedAt: map<nat, nat>, settledAt: map<nat, nat>, queuedAt: nat, waitingAt: map<nat, (nat, nat)>, heldAt: nat)

  const START: World := World(FIRST, [], map[], map[], 0, map[], 0)

  ghost predicate Tied(w: World) {
    && Good(w.log)
    && w.v.session == SignOuts(w.log) && w.v.loadSeq == Loads(w.log) && w.v.loading == InFlight(w.log)
    && (w.v.loading.Some? ==> w.v.loading.value == w.v.loadSeq && w.v.loading.value in w.v.loads)
  }

  ghost predicate Remembers(w: World) {
    && (w.v.collapsedHeld ==> LayoutHeld(w.log, w.heldAt))
    && (w.v.saveTimer.Some? ==> TimerOk(w.log, w.v.saveTimer.value, w.queuedAt))
  }

  ghost predicate Pending(w: World) {
    && LoadsOk(w.log, w.v.loads, w.startedAt)
    && SettledOk(w.log, w.v.settled, w.settledAt, w.v.loads, w.v.loadSeq)
    && WaitingsOk(w.log, w.v.waiting, w.waitingAt, w.v.settled, w.settledAt)
  }

  ghost predicate Inv(w: World) {
    Tied(w) && Remembers(w) && Pending(w)
  }

  ghost predicate LoadAt(log: seq<Event>, loads: map<nat, nat>, startedAt: map<nat, nat>, s: nat) {
    s in loads ==> s in startedAt && LoadOk(log, s, loads[s], startedAt[s])
  }

  ghost predicate LoadsOk(log: seq<Event>, loads: map<nat, nat>, startedAt: map<nat, nat>) {
    forall s: nat {:trigger LoadAt(log, loads, startedAt, s)} :: LoadAt(log, loads, startedAt, s)
  }

  ghost predicate SettledOk(log: seq<Event>, settled: set<nat>, settledAt: map<nat, nat>, loads: map<nat, nat>,
                            loadSeq: nat)
  {
    && (forall s :: s in settled ==>
        s in settledAt && settledAt[s] < |log| && log[settledAt[s]] == LoadSettled(s) && s !in loads)
    && (forall s :: s in settled || s in loads ==> s <= loadSeq)
  }

  ghost predicate WaitAt(log: seq<Event>, waiting: map<nat, Waiting>, waitingAt: map<nat, (nat, nat)>,
                         settled: set<nat>, settledAt: map<nat, nat>, k: nat)
  {
    k in waiting ==>
      && k in waitingAt && WaitingOk(log, waiting[k], waitingAt[k].0, waitingAt[k].1)
      && (waiting[k].on in settled ==> waiting[k].on in settledAt && waitingAt[k].1 < settledAt[waiting[k].on])
  }

  ghost predicate WaitingsOk(log: seq<Event>, waiting: map<nat, Waiting>, waitingAt: map<nat, (nat, nat)>,
                             settled: set<nat>, settledAt: map<nat, nat>)
  {
    forall k: nat {:trigger WaitAt(log, waiting, waitingAt, settled, settledAt, k)} ::
      WaitAt(log, waiting, waitingAt, settled, settledAt, k)
  }

  /** What the pending continuations remember stays true as the history grows. */
  lemma Kept(log: seq<Event>, e: Event, loads: map<nat, nat>, startedAt: map<nat, nat>, settled: set<nat>,
             settledAt: map<nat, nat>, waiting: map<nat, Waiting>, waitingAt: map<nat, (nat, nat)>, loadSeq: nat)
    requires LoadsOk(log, loads, startedAt) && SettledOk(log, settled, settledAt, loads, loadSeq)
    requires WaitingsOk(log, waiting, waitingAt, settled, settledAt)
    ensures LoadsOk(log + [e], loads, startedAt) && SettledOk(log + [e], settled, settledAt, loads, loadSeq)
    ensures WaitingsOk(log + [e], waiting, waitingAt, settled, settledAt)
  {
    forall s: nat
      ensures LoadAt(log + [e], loads, startedAt, s)
    {
      assert LoadAt(log, loads, startedAt, s);
    }
    forall k: nat
      ensures WaitAt(log + [e], waiting, waitingAt, settled, settledAt, k)
    {
      assert WaitAt(log, waiting, waitingAt, settled, settledAt, k);
    }
  }

  /** So does what the timer and the held layout remember. */
  lemma StillQueued(log: seq<Event>, e: Event, timer: Option<nat>, queuedAt: nat, held: bool, heldAt: nat)
    requires timer.Some? ==> TimerOk(log, timer.value, queuedAt)
    requires held ==> LayoutHeld(log, heldAt)
    ensures timer.Some? && !e.Queued? ==> TimerOk(log + [e], timer.value, queuedAt)
    ensures held && !e.SignedOut? ==> LayoutHeld(log + [e], heldAt)
  {
    if held && !e.SignedOut? {
      HeldKept(log, e, heldAt);
    }
  }

  function Loading(w: World): World {
    w.(v := w.v.Begun(), log := w.log + [LoadStarted(w.v.loadSeq + 1, w.v.session)],
       startedAt := w.startedAt[w.v.loadSeq + 1 := |w.log|])
  }

  function Adopting(w: World, s: nat, doc: Doc): World {
    w.(v := w.v.Adopted(doc), log := w.log + [Adopted(s, doc)],
       heldAt := if doc.collapsed.Some? then |w.log| else w.heldAt)
  }

  function Settling(w: World, s: nat): World {
    w.(v := w.v.Settled(s), log := w.log + [LoadSettled(s)], settledAt := w.settledAt[s := |w.log|])
  }

  function SigningOut(w: World): World {
    w.(v := w.v.SignedOut(), log := w.log + [SignedOut])
  }

  function Pressing(w: World, layout: Layout): World {
    w.(v := w.v.Pressed(layout), log := w.log + [Pressed], heldAt := |w.log|)
  }

  function Queueing(w: World): World {
    if !w.v.Saves() then w else w.(v := w.v.Queued(), log := w.log + [Queued(w.v.session)], queuedAt := |w.log|)
  }

  function Firing(w: World, k: nat): World
    requires w.v.saveTimer.Some?
  {
    w.(v := w.v.Fired(k), log := w.log + [Fired(w.v.loading)],
       waitingAt := if w.v.loading.Some? then w.waitingAt[k := (w.queuedAt, |w.log|)] else w.waitingAt)
  }

  function Sending(w: World, q: nat, f: nat): World {
    w.(log := w.log + [Sent(w.v.CurrentDoc(), q, f)])
  }

  // ------------------------------------------------------------------------------------------
  // Every move keeps the variables in step with the history.

  /** What a move that leaves the continuations alone has to show. */
  lemma Appended(w: World, e: Event)
    requires Inv(w)
    ensures Pending(w.(log := w.log + [e]))
    ensures SignOuts(w.log + [e]) == SignOuts(w.log) + if e.SignedOut? then 1 else 0
    ensures Loads(w.log + [e]) == Loads(w.log) + if e.LoadStarted? then 1 else 0
    ensures Promised(w.log, e) ==> Good(w.log + [e])
    ensures !e.LoadStarted? && !e.LoadSettled? && !e.SignedOut? ==> InFlight(w.log + [e]) == InFlight(w.log)
    ensures w.v.saveTimer.Some? && !e.Queued? ==> TimerOk(w.log + [e], w.v.saveTimer.value, w.queuedAt)
    ensures w.v.collapsedHeld && !e.SignedOut? ==> LayoutHeld(w.log + [e], w.heldAt)
  {
    Kept(w.log, e, w.v.loads, w.startedAt, w.v.settled, w.settledAt, w.v.waiting, w.waitingAt, w.v.loadSeq);
    Counted(w.log, e);
    StillQueued(w.log, e, w.v.saveTimer, w.queuedAt, w.v.collapsedHeld, w.heldAt);
    assert (w.log + [e])[..|w.log|] == w.log;
  }

  lemma LoadsOneMore(log: seq<Event>, loads: map<nat, nat>, startedAt: map<nat, nat>, settled: set<nat>,
                     settledAt: map<nat, nat>, loadSeq: nat, n: nat, askedIn: nat, at: nat)
    requires LoadsOk(log, loads, startedAt) && SettledOk(log, settled, settledAt, loads, loadSeq)
    requires n == loadSeq + 1 && LoadOk(log, n, askedIn, at)
    ensures LoadsOk(log, loads[n := askedIn], startedAt[n := at])
    ensures SettledOk(log, settled, settledAt, loads[n := askedIn], n)
  {
    var loads', startedAt' := loads[n := askedIn], startedAt[n := at];
    forall s: nat
      ensures LoadAt(log, loads', startedAt', s)
    {
      assert LoadAt(log, loads, startedAt, s);
    }
  }

  lemma LoadsOneFewer(log: seq<Event>, loads: map<nat, nat>, startedAt: map<nat, nat>, settled: set<nat>,
                      settledAt: map<nat, nat>, loadSeq: nat, s: nat, at: nat)
    requires LoadsOk(log, loads, startedAt) && SettledOk(log, settled, settledAt, loads, loadSeq)
    requires s in loads && at < |log| && log[at] == LoadSettled(s)
    ensures LoadsOk(log, loads - {s}, startedAt)
    ensures SettledOk(log, settled + {s}, settledAt[s := at], loads - {s}, loadSeq)
  {
    forall x: nat
      ensures LoadAt(log, loads - {s}, startedAt, x)
    {
      assert LoadAt(log, loads, startedAt, x);
    }
  }

  lemma WaitsOneSettled(log: seq<Event>, waiting: map<nat, Waiting>, waitingAt: map<nat, (nat, nat)>,
                        settled: set<nat>, settledAt: map<nat, nat>, s: nat)
    requires WaitingsOk(log, waiting, waitingAt, settled, settledAt) && s !in settled
    ensures WaitingsOk(log + [LoadSettled(s)], waiting, waitingAt, settled + {s}, settledAt[s := |log|])
  {
    var settledAt' := settledAt[s := |log|];
    forall k: nat
      ensures WaitAt(log + [LoadSettled(s)], waiting, waitingAt, settled + {s}, settledAt', k)
    {
      assert WaitAt(log, waiting, waitingAt, settled, settledAt, k);
    }
  }

  lemma WaitsOneMore(log: seq<Event>, waiting: map<nat, Waiting>, waitingAt: map<nat, (nat, nat)>, settled: set<nat>,
                     settledAt: map<nat, nat>, k: nat, w: Waiting, q: nat, f: nat)
    requires WaitingsOk(log, waiting, waitingAt, settled, settledAt) && k !in waiting
    requires WaitingOk(log, w, q, f) && w.on !in settled
    ensures WaitingsOk(log, waiting[k := w], waitingAt[k := (q, f)], settled, settledAt)
  {
    var waiting', waitingAt' := waiting[k := w], waitingAt[k := (q, f)];
    forall x: nat
      ensures WaitAt(log, waiting', waitingAt', settled, settledAt, x)
    {
      assert WaitAt(log, waiting, waitingAt, settled, settledAt, x);
    }
  }

  lemma WaitsOneFewer(log: seq<Event>, waiting: map<nat, Waiting>, waitingAt: map<nat, (nat, nat)>, settled: set<nat>,
                      settledAt: map<nat, nat>, k: nat)
    requires WaitingsOk(log, waiting, waitingAt, settled, settledAt)
    ensures WaitingsOk(log, waiting - {k}, waitingAt, settled, settledAt)
  {
    forall x: nat
      ensures WaitAt(log, waiting - {k}, waitingAt, settled, settledAt, x)
    {
      assert WaitAt(log, waiting, waitingAt, settled, settledAt, x);
    }
  }

  lemma BegunPending(log: seq<Event>, loads: map<nat, nat>, startedAt: map<nat, nat>, settled: set<nat>,
                     settledAt: map<nat, nat>, waiting: map<nat, Waiting>, waitingAt: map<nat, (nat, nat)>,
                       loadSeq: nat, session: nat)
    requires LoadsOk(log, loads, startedAt) && SettledOk(log, settled, settledAt, loads, loadSeq)
    requires WaitingsOk(log, waiting, waitingAt, settled, settledAt)
    ensures var log', n := log + [LoadStarted(loadSeq + 1, session)], loadSeq + 1;
            && LoadsOk(log', loads[n := session], startedAt[n := |log|])
            && SettledOk(log', settled, settledAt, loads[n := session], n)
            && WaitingsOk(log', waiting, waitingAt, settled, settledAt)
  {
    var e := LoadStarted(loadSeq + 1, session);
    Kept(log, e, loads, startedAt, settled, settledAt, waiting, waitingAt, loadSeq);
    assert LoadOk(log + [e], loadSeq + 1, session, |log|);
    LoadsOneMore(log + [e], loads, startedAt, settled, settledAt, loadSeq, loadSeq + 1, session, |log|);
  }

  lemma LoadingPending(w: World)
    requires Pending(w)
    ensures Pending(Loading(w))
  {
    var w' := Loading(w);
    BegunPending(w.log, w.v.loads, w.startedAt, w.v.settled, w.settledAt, w.v.waiting, w.waitingAt, w.v.loadSeq,
                 w.v.session);
    assert LoadsOk(w'.log, w'.v.loads, w'.startedAt);
    assert SettledOk(w'.log, w'.v.settled, w'.settledAt, w'.v.loads, w'.v.loadSeq);
  }

  lemma SettlingPending(w: World, s: nat)
    requires Pending(w) && s in w.v.loads
    ensures Pending(Settling(w, s))
  {
    var e := LoadSettled(s);
    Kept(w.log, e, w.v.loads, w.startedAt, w.v.settled, w.settledAt, w.v.waiting, w.waitingAt, w.v.loadSeq);
    LoadsOneFewer(w.log + [e], w.v.loads, w.startedAt, w.v.settled, w.settledAt, w.v.loadSeq, s, |w.log|);
    WaitsOneSettled(w.log, w.v.waiting, w.waitingAt, w.v.settled, w.settledAt, s);
  }

  lemma FiringPending(w: World, k: nat)
    requires Pending(w) && w.v.saveTimer.Some? && k !in w.v.waiting && TimerOk(w.log, w.v.saveTimer.value, w.queuedAt)
    requires w.v.loading.Some? ==> w.v.loading.value in w.v.loads
    ensures Pending(Firing(w, k))
  {
    var e := Fired(w.v.loading);
    Kept(w.log, e, w.v.loads, w.startedAt, w.v.settled, w.settledAt, w.v.waiting, w.waitingAt, w.v.loadSeq);
    if w.v.loading.Some? {
      WaitsOneMore(w.log + [e], w.v.waiting, w.waitingAt, w.v.settled, w.settledAt, k,
                   Waiting(w.v.saveTimer.value, w.v.loading.value), w.queuedAt, |w.log|);
    }
  }

  lemma LoadingTied(w: World)
    requires Tied(w)
    ensures Tied(Loading(w))
  {
    var w', e := Loading(w), LoadStarted(w.v.loadSeq + 1, w.v.session);
    assert Good(w'.log) && w'.v.session == SignOuts(w'.log) && w'.v.loadSeq == Loads(w'.log) by {
      Counted(w.log, e);
    }
    assert w'.v.loading == InFlight(w'.log) by {
      Counted(w.log, e);
    }
  }

  lemma LoadingKeeps(w: World)
    requires Inv(w)
    ensures Inv(Loading(w))
  {
    LoadingPending(w);
    LoadingTied(w);
    StillQueued(w.log, LoadStarted(w.v.loadSeq + 1, w.v.session), w.v.saveTimer, w.queuedAt, w.v.collapsedHeld,
                w.heldAt);
  }

  lemma AskedInThisSession(w: World, s: nat)
    requires Tied(w) && s in w.v.loads && w.v.Current(s) && s in w.startedAt
    requires LoadOk(w.log, s, w.v.loads[s], w.startedAt[s])
    ensures exists j :: AskedHere(w.log, j, s)
  {
    var at := w.startedAt[s];
    GoodEverywhere(w.log, at);
    SameSession(w.log, at);
    assert w.log[..at + 1][..at] == w.log[..at];
    NoNewerLoad(w.log, at + 1);
    assert AskedHere(w.log, at, s);
  }

  /** An event that moves neither the session nor the loads. */
  lemma PlainTied(w: World, e: Event)
    requires Tied(w) && Promised(w.log, e) && !e.LoadStarted? && !e.LoadSettled? && !e.SignedOut?
    ensures Tied(w.(log := w.log + [e]))
  {
    Counted(w.log, e);
  }

  lemma AdoptingTied(w: World, s: nat, doc: Doc)
    requires Inv(w) && s in w.v.loads && w.v.Current(s)
    ensures Tied(w.(log := w.log + [Adopted(s, doc)]))
  {
    assert LoadAt(w.log, w.v.loads, w.startedAt, s);
    AskedInThisSession(w, s);
    PlainTied(w, Adopted(s, doc));
  }

  lemma AdoptingRemembers(w: World, s: nat, doc: Doc)
    requires Remembers(w)
    ensures Remembers(Adopting(w, s, doc))
  {
    StillQueued(w.log, Adopted(s, doc), w.v.saveTimer, w.queuedAt, w.v.collapsedHeld, w.heldAt);
  }

  lemma AdoptingKeeps(w: World, s: nat, doc: Doc)
    requires Inv(w) && s in w.v.loads && w.v.Current(s)
    ensures Inv(Adopting(w, s, doc))
  {
    AdoptingTied(w, s, doc);
    AdoptingRemembers(w, s, doc);
    Kept(w.log, Adopted(s, doc), w.v.loads, w.startedAt, w.v.settled, w.settledAt, w.v.waiting, w.waitingAt,
         w.v.loadSeq);
  }

  lemma SettlingTied(w: World, s: nat)
    requires Tied(w)
    ensures Tied(Settling(w, s))
  {
    Counted(w.log, LoadSettled(s));
  }

  lemma SettlingKeeps(w: World, s: nat)
    requires Inv(w) && s in w.v.loads
    ensures Inv(Settling(w, s))
  {
    SettlingPending(w, s);
    SettlingTied(w, s);
    StillQueued(w.log, LoadSettled(s), w.v.saveTimer, w.queuedAt, w.v.collapsedHeld, w.heldAt);
  }

  lemma SigningOutKeeps(w: World)
    requires Inv(w)
    ensures Inv(SigningOut(w))
  {
    Appended(w, SignedOut);
    assert (w.log + [SignedOut])[..|w.log|] == w.log;
  }

  lemma PressingKeeps(w: World, layout: Layout)
    requires Inv(w)
    ensures Inv(Pressing(w, layout))
  {
    Appended(w, Pressed);
  }

  lemma QueueingKeeps(w: World)
    requires Inv(w)
    ensures Inv(Queueing(w))
  {
    if w.v.Saves() {
      Appended(w, Queued(w.v.session));
    }
  }

  lemma FiringKeeps(w: World, k: nat)
    requires Inv(w) && w.v.saveTimer.Some? && k !in w.v.waiting
    ensures Inv(Firing(w, k))
  {
    FiringPending(w, k);
    PlainTied(w, Fired(w.v.loading));
    StillQueued(w.log, Fired(w.v.loading), w.v.saveTimer, w.queuedAt, w.v.collapsedHeld, w.heldAt);
  }

  /** A save that may leave was queued in this session and has waited for what it had to wait for. */
  lemma SendingKeeps(w: World, queuedIn: nat, q: nat, f: nat)
    requires Inv(w) && w.v.MaySend(queuedIn)
    requires q < f < |w.log| && w.log[q] == Queued(queuedIn) && w.log[f].Fired?
    requires forall i :: q < i < f ==> !w.log[i].Queued?
    requires w.log[f].loading.Some? ==> SettledAfter(w.log, f, w.log[f].loading.value)
    ensures Inv(Sending(w, q, f))
  {
    var doc := w.v.CurrentDoc();
    GoodEverywhere(w.log, q);
    SameSession(w.log, q);
    assert doc.collapsed == Some({}) ==> LayoutHeld(w.log, w.heldAt);
    Appended(w, Sent(doc, q, f));
  }

  // ------------------------------------------------------------------------------------------
  // Whole histories.

  datatype Step =
    | Token(held: bool)
    | Load
    | Reply(s: nat, reply: Reply)
    | SignOut
    | Edit(value: int)
    | Press(layout: Layout)
    | Fire(k: nat)
    | Resume(k: nat)

  /** What can happen: a reply to a load in flight, a timer that is set, a wait that is over. */
  predicate Enabled(v: Vars, step: Step) {
    match step
    case Reply(s, _) => s in v.loads
    case Fire(k) => v.saveTimer.Some? && k !in v.waiting
    case Resume(k) => k in v.waiting && v.waiting[k].on in v.settled
    case _ => true
  }

  function Heard(w: World, s: nat, reply: Reply): World
    requires s in w.v.loads
  {
    if !w.v.Current(s) then w
    else if reply.Failure? then w.(v := w.v.(supported := false))
    else
      var a := Adopting(w, s, reply.doc);
      a.(v := a.v.(supported := true))
  }

  /** Where a waiting save was queued, and where its timer fired. */
  function WaitedFrom(w: World, k: nat): (nat, nat) {
    if k in w.waitingAt then w.waitingAt[k] else (0, 0)
  }

  function Next(w: World, step: Step): World
    requires Enabled(w.v, step)
  {
    match step
    case Token(held) => w.(v := w.v.(token := held))
    case Load => if w.v.token then Loading(w) else w
    case Reply(s, reply) => Settling(Heard(w, s, reply), s)
    case SignOut => SigningOut(w)
    case Edit(value) => Queueing(w.(v := w.v.(store := w.v.store.(rest := Some(value)))))
    case Press(layout) => Queueing(Pressing(w, layout))
    case Fire(k) =>
      var fired := Firing(w, k);
      if w.v.loading.None? && fired.v.MaySend(w.v.saveTimer.value) then Sending(fired, w.queuedAt, |w.log|) else fired
    case Resume(k) =>
      var r := w.(v := w.v.Resumed(k));
      if r.v.MaySend(w.v.waiting[k].queuedIn) then Sending(r, WaitedFrom(w, k).0, WaitedFrom(w, k).1) else r
  }

  /** The variables move as the module's own methods move them. */
  lemma NextFollowsTheModule(w: World, step: Step)
    requires Enabled(w.v, step)
    ensures Next(w, step).v ==
      match step
      case Token(held) => w.v.(token := held)
      case Load => w.v.Started()
      case Reply(s, reply) => w.v.Answered(s, reply)
      case SignOut => w.v.SignedOut()
      case Edit(value) => w.v.(store := w.v.store.(rest := Some(value))).Queued()
      case Press(layout) => w.v.Pressed(layout).Queued()
      case Fire(k) => w.v.Fired(k)
      case Resume(k) => w.v.Resumed(k)
  {
  }

  /** What the module's methods answer at a step: the document that leaves, if one does. */
  function PutAt(v: Vars, step: Step): Option<Doc>
    requires Enabled(v, step)
  {
    match step
    case Fire(_) => v.TimerPut()
    case Resume(k) => v.ResumePut(k)
    case _ => None
  }

  /** A history goes on, and of what is added the last event and no other is a send, of this document. */
  ghost predicate GoesOn(log: seq<Event>, log': seq<Event>, put: Option<Doc>) {
    && log <= log'
    && (forall i :: |log| <= i < |log'| ==> (log'[i].Sent? <==> put.Some? && i == |log'| - 1))
    && (put.Some? ==> |log| < |log'| && log'[|log'| - 1].Sent? && log'[|log'| - 1].doc == put.value)
  }

  lemma FiringSends(w: World, k: nat)
    requires Enabled(w.v, Fire(k))
    ensures GoesOn(w.log, Next(w, Fire(k)).log, w.v.TimerPut())
  {
  }

  lemma ReplySendsNothing(w: World, s: nat, reply: Reply)
    requires Enabled(w.v, Reply(s, reply))
    ensures GoesOn(w.log, Next(w, Reply(s, reply)).log, None)
  {
    var heard := Heard(w, s, reply);
    assert GoesOn(w.log, heard.log, None);
    assert Next(w, Reply(s, reply)).log == heard.log + [LoadSettled(s)];
  }

  /** A step only adds to the history, and adds a send exactly of the document the methods answer. */
  lemma NextSendsWhatTheModuleSends(w: World, step: Step)
    requires Enabled(w.v, step)
    ensures GoesOn(w.log, Next(w, step).log, PutAt(w.v, step))
  {
    match step
    case Fire(k) => FiringSends(w, k);
    case Reply(s, reply) => ReplySendsNothing(w, s, reply);
    case _ =>
  }

  lemma HeardKeeps(w: World, s: nat, reply: Reply)
    requires Inv(w) && s in w.v.loads
    ensures Inv(Heard(w, s, reply)) && s in Heard(w, s, reply).v.loads
  {
    if w.v.Current(s) {
      if reply.Answer? {
        AdoptingKeeps(w, s, reply.doc);
        SupportAside(Adopting(w, s, reply.doc), true);
      } else {
        SupportAside(w, false);
      }
    }
  }

  /** Whether the endpoint is served is no part of the history. */
  lemma SupportAside(w: World, supported: bool)
    requires Inv(w)
    ensures Inv(w.(v := w.v.(supported := supported)))
  {
    var w' := w.(v := w.v.(supported := supported));
    assert Tied(w') && Remembers(w') && Pending(w');
  }

  lemma NextKeeps(w: World, step: Step)
    requires Enabled(w.v, step) && Inv(w)
    ensures Inv(Next(w, step))
  {
    match step
    case Token(_) =>
    case Load => LoadingKeeps(w);
    case Reply(s, reply) =>
      HeardKeeps(w, s, reply);
      SettlingKeeps(Heard(w, s, reply), s);
    case SignOut => SigningOutKeeps(w);
    case Edit(value) => QueueingKeeps(w.(v := w.v.(store := w.v.store.(rest := Some(value)))));
    case Press(layout) =>
      PressingKeeps(w, layout);
      QueueingKeeps(Pressing(w, layout));
    case Fire(k) =>
      FiringKeeps(w, k);
      if Next(w, step) != Firing(w, k) {
        PrefixKept(w.log, Fired(w.v.loading), w.queuedAt);
        SendingKeeps(Firing(w, k), w.v.saveTimer.value, w.queuedAt, |w.log|);
      }
    case Resume(k) => ResumeKeeps(w, k);
  }

  lemma ResumeKeeps(w: World, k: nat)
    requires Inv(w) && k in w.v.waiting && w.v.waiting[k].on in w.v.settled
    ensures Inv(Next(w, Resume(k)))
  {
    var r, q, f, on := w.(v := w.v.Resumed(k)), w.waitingAt[k].0, w.waitingAt[k].1, w.v.waiting[k].on;
    WaitsOneFewer(w.log, w.v.waiting, w.waitingAt, w.v.settled, w.settledAt, k);
    assert Inv(r);
    assert WaitAt(w.log, w.v.waiting, w.waitingAt, w.v.settled, w.settledAt, k);
    assert WaitingOk(w.log, w.v.waiting[k], q, f);
    assert w.log[w.settledAt[on]] == LoadSettled(on) && f < w.settledAt[on];
    if r.v.MaySend(w.v.waiting[k].queuedIn) {
      SendingKeeps(r, w.v.waiting[k].queuedIn, q, f);
    }
  }

  /** A history: every step possible when it is taken. */
  ghost predicate IsHistory(steps: seq<Step>, worlds: seq<World>) {
    && |worlds| == |steps| + 1 && worlds[0] == START
    && forall n :: 0 <= n < |steps| ==> Enabled(worlds[n].v, steps[n]) && worlds[n + 1] == Next(worlds[n], steps[n])
  }

  lemma {:induction false} ReachedIsSound(steps: seq<Step>, worlds: seq<World>, n: nat)
    requires IsHistory(steps, worlds) && n <= |steps|
    ensures Inv(worlds[n])
  {
    if n > 0 {
      ReachedIsSound(steps, worlds, n - 1);
      NextKeeps(worlds[n - 1], steps[n - 1]);
    }
  }

  /**
   * In every interleaving: a document is adopted only in the session that asked for it and only from
   * the newest load; a save is sent only in the session it was queued in, only from the last edit of
   * its burst, and only after the load in flight at its timer has settled; an empty folder layout is
   * sent only if the account supplied one or a folder was pressed in that session.
   */
  lemma EveryHistoryKeepsThePromises(steps: seq<Step>, worlds: seq<World>, i: nat)
    requires IsHistory(steps, worlds) && i < |worlds[|steps|].log|
    ensures var log := worlds[|steps|].log; Promised(log[..i], log[i])
  {
    ReachedIsSound(steps, worlds, |steps|);
    GoodEverywhere(worlds[|steps|].log, i);
  }

  lemma {:induction false} GoodEverywhere(log: seq<Event>, i: nat)
    requires Good(log) && i < |log|
    ensures Promised(log[..i], log[i])
  {
    var init := log[..|log| - 1];
    if i < |init| {
      GoodEverywhere(init, i);
      assert init[..i] == log[..i] && init[i] == log[i];
    }
  }

  // ------------------------------------------------------------------------------------------
  // What does get through.

  /** The layout part of a document: what this browser has, and an empty one only if it holds it. */
  predicate CarriesLayout(v: Vars, collapsed: Option<Layout>) {
    match v.store.collapsed
    case Some(layout) => collapsed == if layout == {} && !v.collapsedHeld then None else Some(layout)
    case None => collapsed == if v.collapsedHeld then Some({}) else None
  }

  /** The last event of a history is a send of the preference `rest`, with the layout the browser has. */
  predicate JustSent(w: World, rest: Option<int>) {
    w.log != [] && var e := w.log[|w.log| - 1]; e.Sent? && e.doc.rest == rest && CarriesLayout(w.v, e.doc.collapsed)
  }

  /** An edit made with a token, while the account supports it and no load is in flight, leaves with its timer. */
  lemma AnEditIsSent(w: World, value: int, k: nat)
    requires w.v.token && w.v.supported && w.v.loading.None? && k !in w.v.waiting
    ensures var edited := Next(w, Edit(value));
            Enabled(edited.v, Fire(k)) && JustSent(Next(edited, Fire(k)), Some(value))
  {
  }

  /** A pressed folder is sent the same way, an empty layout included. */
  lemma APressIsSent(w: World, layout: Layout, k: nat)
    requires w.v.token && w.v.supported && w.v.loading.None? && k !in w.v.waiting
    ensures var pressed := Next(w, Press(layout));
            && Enabled(pressed.v, Fire(k))
            && var log := Next(pressed, Fire(k)).log;
               log != [] && log[|log| - 1].Sent? && log[|log| - 1].doc == Doc(Some(layout), w.v.store.rest)
  {
  }

  /** Without a token, or once the account has proved unsupported, an edit stays in this browser. */
  lemma AnEditStaysHere(w: World, value: int)
    requires !(w.v.token && w.v.supported)
    ensures var w' := Next(w, Edit(value));
            w'.log == w.log && w'.v == w.v.(store := w.v.store.(rest := Some(value)))
  {
  }

  /**
   * A save whose timer fires while a load is in flight leaves once the reply has been heard, and then
   * says what the account said where it said something, and the edit where it did not.
   */
  lemma AnEditWaitsForTheLoad(w: World, value: int, k: nat, doc: Doc)
    requires Inv(w) && w.v.token && w.v.supported && w.v.loading.Some? && k !in w.v.waiting
    requires w.v.loads[w.v.loading.value] == w.v.session
    ensures var s := w.v.loading.value;
            var fired := Next(Next(w, Edit(value)), Fire(k));
            && fired.log[|fired.log| - 1].Fired? && Enabled(fired.v, Reply(s, Answer(doc)))
            && var heard := Next(fired, Reply(s, Answer(doc)));
               && Enabled(heard.v, Resume(k))
               && JustSent(Next(heard, Resume(k)), if doc.rest.Some? then doc.rest else Some(value))
               && (doc.collapsed.Some? ==> heard.v.store.collapsed == doc.collapsed)
  {
  }

  /** A reply is taken field by field when it is the newest load of this session that it answers, and ignored else. */
  lemma OnlyTheNewestReplyIsTaken(w: World, s: nat, doc: Doc)
    requires s in w.v.loads
    ensures var v, v' := w.v, Next(w, Reply(s, Answer(doc))).v;
            if v.loads[s] == v.session && s == v.loadSeq then
              && v'.supported
              && v'.store.rest == (if doc.rest.Some? then doc.rest else v.store.rest)
              && v'.store.collapsed == (if doc.collapsed.Some? then doc.collapsed else v.store.collapsed)
            else
              v'.store == v.store && v'.supported == v.supported && v'.collapsedHeld == v.collapsedHeld
  {
  }

  /** Whatever went wrong for one account does not keep the next one from saving. */
  lemma ANewSessionSavesAgain(w: World, value: int, k: nat)
    requires k !in w.v.waiting
    ensures var signedIn := Next(Next(w, SignOut), Token(true));
            && signedIn.v.saveTimer.None? && signedIn.v.session == w.v.session + 1
            && var edited := Next(signedIn, Edit(value));
               Enabled(edited.v, Fire(k)) && JustSent(Next(edited, Fire(k)), Some(value))
  {
    AnEditIsSent(Next(Next(w, SignOut), Token(true)), value, k);
  }
}
