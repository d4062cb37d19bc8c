/** Every replica's receiver over one orders table: a message takes effect at
    most once, however often it is delivered and retried
    (kafka.go:108-141, order_receiver_service.go:62-78, postgres.go:276-345).
    Inserting the order row locks its uid until the transaction ends; a second
    insert of the uid waits for that, and fails on a committed row. Two uids are
    one here when their rows have one key. */
module AtMostOnce {
  import opened Common
  import opened Models
  import opened Receiver
  import Storage

  /** The message that wrote a row, named by its replica and its id there. */
  datatype Writer = Writer(replica: nat, id: nat)

  datatype System = System(
    replicas: seq<State>,
    locks: map<string, Writer>,    // uids inserted by transactions still open
    orders: map<string, Writer>,   // committed rows of the orders table
    lost: seq<string>)             // successes whose commit failed

  datatype Step =
    | Plain(r: nat, inner: Label)        // anything but a processing outcome
    | InsertOrder(r: nat, g: nat)
    | FailBefore(r: nat, g: nat)         // SaveOrder fails without holding the uid
    | FailAfter(r: nat, g: nat)          // a later insert fails: rollback
    | Commit(r: nat, g: nat, ok: bool)   // SaveOrder returns nil

  function Init(starts: seq<int>): System {
    System(seq(|starts|, i requires 0 <= i < |starts| => Receiver.Init(starts[i])), map[], map[], [])
  }

  /** The key of the row of an order: a uid longer than its column is cut, which
      Postgres does when only spaces are cut off. */
  function KeyOf(m: Message): string { m.value.orderUID[..Min(|m.value.orderUID|, 50)] }

  predicate KeyFits(m: Message) {
    var uid := m.value.orderUID;
    '\0' !in uid && forall i :: 50 <= i < |uid| ==> uid[i] == ' '
  }

  predicate Holds(s: System, r: nat, m: Message) {
    KeyOf(m) in s.locks && s.locks[KeyOf(m)] == Writer(r, m.id)
  }

  predicate CanStep(c: Config, s: System, step: Step) {
    && step.r < |s.replicas|
    && var p := s.replicas[step.r];
       match step
       case Plain(_, l) => Enabled(c, p, l) && !l.Succeed? && !l.Fail?
       case InsertOrder(_, g) =>
         Enabled(c, p, Succeed(g)) && KeyFits(p.goroutines[g].msg)
         && KeyOf(p.goroutines[g].msg) !in s.locks && KeyOf(p.goroutines[g].msg) !in s.orders
       case FailBefore(r, g) => Enabled(c, p, Fail(g)) && !Holds(s, r, p.goroutines[g].msg)
       case FailAfter(r, g) => Enabled(c, p, Fail(g)) && Holds(s, r, p.goroutines[g].msg)
       case Commit(r, g, _) => Enabled(c, p, Succeed(g)) && Holds(s, r, p.goroutines[g].msg)
  }

  /** The receiver step that a system step contains, if any. */
  function Inner(step: Step): Option<Label> {
    match step
    case Plain(_, l) => Some(l)
    case InsertOrder(_, _) => None
    case FailBefore(_, g) => Some(Fail(g))
    case FailAfter(_, g) => Some(Fail(g))
    case Commit(_, g, _) => Some(Succeed(g))
  }

  function Do(c: Config, s: System, step: Step): System
    requires CanStep(c, s, step)
  {
    var p := s.replicas[step.r];
    var n := match Inner(step)
             case None => s
             case Some(l) => s.(replicas := s.replicas[step.r := Next(c, p, l)]);
    match step
    case Plain(_, _) => n
    case InsertOrder(r, g) =>
      var m := p.goroutines[g].msg;
      n.(locks := s.locks[KeyOf(m) := Writer(r, m.id)])
    case FailBefore(_, _) => n
    case FailAfter(_, g) => n.(locks := s.locks - {KeyOf(p.goroutines[g].msg)})
    case Commit(r, g, ok) =>
      var uid := KeyOf(p.goroutines[g].msg);
      var released := n.(locks := s.locks - {uid});
      if ok then released.(orders := s.orders[uid := s.locks[uid]]) else released.(lost := s.lost + [uid])
  }

  predicate CanRun(c: Config, s: System, run: seq<Step>)
    decreases run
  {
    run == [] || (CanStep(c, s, run[0]) && CanRun(c, Do(c, s, run[0]), run[1..]))
  }

  function Outcome(c: Config, s: System, run: seq<Step>): System
    requires CanRun(c, s, run)
    decreases run
  {
    if run == [] then s else Outcome(c, Do(c, s, run[0]), run[1..])
  }

  // ----- counting completed messages -----

  function WithUid(uid: string): Message -> bool { (m: Message) => KeyOf(m) == uid }

  function WithId(id: nat): Message -> bool { (m: Message) => m.id == id }

  function CountIf(ms: seq<Message>, p: Message -> bool): nat {
    if ms == [] then 0 else (if p(ms[0]) then 1 else 0) + CountIf(ms[1..], p)
  }

  function AckCountIf(gs: seq<Goroutine>, p: Message -> bool): nat {
    if gs == [] then 0 else (if gs[0].Acking? && p(gs[0].msg) then 1 else 0) + AckCountIf(gs[1..], p)
  }

  /** Messages of one replica whose `SaveOrder` returned nil, acknowledged to
      Kafka or not yet. */
  function Completed(s: State, p: Message -> bool): nat {
    CountIf(s.succeeded, p) + AckCountIf(s.goroutines, p)
  }

  function CompletedAll(replicas: seq<State>, p: Message -> bool): nat {
    if replicas == [] then 0 else Completed(replicas[0], p) + CompletedAll(replicas[1..], p)
  }

  function Occurrences(uids: seq<string>, uid: string): nat {
    if uids == [] then 0 else (if uids[0] == uid then 1 else 0) + Occurrences(uids[1..], uid)
  }

  lemma OccurrencesAppend(uids: seq<string>, x: string, uid: string)
    ensures Occurrences(uids + [x], uid) == Occurrences(uids, uid) + if x == uid then 1 else 0
  {
    if uids == [] {
      assert uids + [x] == [x];
    } else {
      OccurrencesAppend(uids[1..], x, uid);
      assert (uids + [x])[1..] == uids[1..] + [x];
    }
  }

  lemma CountIfAppend(ms: seq<Message>, m: Message, p: Message -> bool)
    ensures CountIf(ms + [m], p) == CountIf(ms, p) + if p(m) then 1 else 0
  {
    if ms == [] {
      assert ms + [m] == [m];
    } else {
      CountIfAppend(ms[1..], m, p);
      assert (ms + [m])[1..] == ms[1..] + [m];
    }
  }

  lemma AckCountIfAppend(a: seq<Goroutine>, b: seq<Goroutine>, p: Message -> bool)
    ensures AckCountIf(a + b, p) == AckCountIf(a, p) + AckCountIf(b, p)
  {
    if a == [] {
      assert a + b == b;
    } else {
      AckCountIfAppend(a[1..], b, p);
      assert (a + b)[1..] == a[1..] + b;
    }
  }

  lemma AckCountIfRemoved(gs: seq<Goroutine>, i: nat, p: Message -> bool)
    requires i < |gs|
    ensures AckCountIf(gs, p) == AckCountIf(RemovedAt(gs, i), p) + if gs[i].Acking? && p(gs[i].msg) then 1 else 0
  {
    var a, b := gs[..i], gs[i + 1..];
    var tail := [gs[i]] + b;
    assert tail[0] == gs[i] && tail[1..] == b;
    assert gs == a + tail && RemovedAt(gs, i) == a + b;
    AckCountIfAppend(a, tail, p);
    AckCountIfAppend(a, b, p);
  }

  lemma AckCountIfReplaced(gs: seq<Goroutine>, i: nat, g: Goroutine, p: Message -> bool)
    requires i < |gs| && !gs[i].Acking?
    ensures AckCountIf(gs[i := g], p) == AckCountIf(gs, p) + if g.Acking? && p(g.msg) then 1 else 0
  {
    AckCountIfRemoved(gs, i, p);
    AckCountIfRemoved(gs[i := g], i, p);
    assert RemovedAt(gs[i := g], i) == RemovedAt(gs, i);
  }

  /** Only a success completes a message, and nothing undoes it. */
  lemma StepCompletes(c: Config, s: State, l: Label, p: Message -> bool)
    requires Enabled(c, s, l)
    ensures Completed(Next(c, s, l), p)
            == Completed(s, p) + if l.Succeed? && p(s.goroutines[l.g].msg) then 1 else 0
  {
    var n := Next(c, s, l);
    match l
    case Spawn => AckCountIfAppend(s.goroutines, [Processing(s.consumer.msg)], p);
    case Succeed(g) => AckCountIfReplaced(s.goroutines, g, n.goroutines[g], p);
    case Fail(g) =>
      AckCountIfRemoved(s.goroutines, g, p);
      if |n.goroutines| == |s.goroutines| {
        AckCountIfReplaced(s.goroutines, g, n.goroutines[g], p);
      }
    case Push(g) => AckCountIfRemoved(s.goroutines, g, p);
    case Ack(g) =>
      AckCountIfRemoved(s.goroutines, g, p);
      CountIfAppend(s.succeeded, s.goroutines[g].msg, p);
    case _ =>
  }

  lemma CompletedAllUpdate(replicas: seq<State>, r: nat, n: State, p: Message -> bool)
    requires r < |replicas|
    ensures CompletedAll(replicas[r := n], p) == CompletedAll(replicas, p) - Completed(replicas[r], p) + Completed(n, p)
  {
    if r > 0 {
      CompletedAllUpdate(replicas[1..], r - 1, n, p);
      assert replicas[r := n][1..] == replicas[1..][r - 1 := n];
    } else {
      assert replicas[r := n][1..] == replicas[1..];
    }
  }

  // ----- the invariant -----

  /** Completions and table keys are in balance for one uid. */
  ghost predicate Balanced(s: System, uid: string) {
    CompletedAll(s.replicas, WithUid(uid)) == (if uid in s.orders then 1 else 0) + Occurrences(s.lost, uid)
  }

  /** The row was written by a message that is completed. */
  ghost predicate WrittenByCompleted(s: System, w: Writer) {
    w.replica < |s.replicas| && Completed(s.replicas[w.replica], WithId(w.id)) >= 1
  }

  ghost predicate Inv(s: System) {
    && (forall r :: 0 <= r < |s.replicas| ==> Conserved(s.replicas[r]) && Faithful(s.replicas[r]))
    && s.locks.Keys !! s.orders.Keys
    && (forall uid :: Balanced(s, uid))
    && (forall uid :: uid in s.orders ==> WrittenByCompleted(s, s.orders[uid]))
  }

  lemma StepBalances(c: Config, s: System, step: Step, uid: string)
    requires Inv(s) && CanStep(c, s, step)
    ensures Balanced(Do(c, s, step), uid)
  {
    var p := s.replicas[step.r];
    assert Balanced(s, uid);
    if Inner(step).Some? {
      var l := Inner(step).value;
      StepCompletes(c, p, l, WithUid(uid));
      CompletedAllUpdate(s.replicas, step.r, Next(c, p, l), WithUid(uid));
    }
    if step.Commit? && !step.ok {
      OccurrencesAppend(s.lost, KeyOf(p.goroutines[step.g].msg), uid);
    }
  }

  /** A completed message stays completed. */
  lemma StepKeepsCompleted(c: Config, s: System, step: Step, w: Writer)
    requires CanStep(c, s, step) && WrittenByCompleted(s, w)
    ensures WrittenByCompleted(Do(c, s, step), w)
  {
    if Inner(step).Some? {
      StepCompletes(c, s.replicas[step.r], Inner(step).value, WithId(w.id));
    }
  }

  lemma CommitCompletes(c: Config, s: System, step: Step)
    requires CanStep(c, s, step) && step.Commit?
    ensures WrittenByCompleted(Do(c, s, step), Writer(step.r, s.replicas[step.r].goroutines[step.g].msg.id))
  {
    var id := s.replicas[step.r].goroutines[step.g].msg.id;
    StepCompletes(c, s.replicas[step.r], Succeed(step.g), WithId(id));
  }

  lemma StepKeepsWriters(c: Config, s: System, step: Step, uid: string)
    requires Inv(s) && CanStep(c, s, step) && uid in Do(c, s, step).orders
    ensures WrittenByCompleted(Do(c, s, step), Do(c, s, step).orders[uid])
  {
    if uid in s.orders {
      assert WrittenByCompleted(s, s.orders[uid]);
      StepKeepsCompleted(c, s, step, s.orders[uid]);
    } else {
      CommitCompletes(c, s, step);
    }
  }

  lemma StepKeepsReplicas(c: Config, s: System, step: Step, r: nat)
    requires Inv(s) && CanStep(c, s, step) && r < |s.replicas|
    ensures Conserved(Do(c, s, step).replicas[r]) && Faithful(Do(c, s, step).replicas[r])
  {
    if r == step.r && Inner(step).Some? {
      StepConserves(c, s.replicas[r], Inner(step).value);
      StepFaithful(c, s.replicas[r], Inner(step).value);
    }
  }

  lemma StepKeepsInv(c: Config, s: System, step: Step)
    requires Inv(s) && CanStep(c, s, step)
    ensures Inv(Do(c, s, step))
  {
    var n := Do(c, s, step);
    assert |n.replicas| == |s.replicas|;
    forall r | 0 <= r < |n.replicas| ensures Conserved(n.replicas[r]) && Faithful(n.replicas[r]) {
      StepKeepsReplicas(c, s, step, r);
    }
    forall uid ensures Balanced(n, uid) {
      StepBalances(c, s, step, uid);
    }
    forall uid | uid in n.orders ensures WrittenByCompleted(n, n.orders[uid]) {
      StepKeepsWriters(c, s, step, uid);
    }
  }

  lemma {:induction false} EveryRunKeepsInv(c: Config, s: System, run: seq<Step>)
    requires Inv(s) && CanRun(c, s, run)
    ensures Inv(Outcome(c, s, run))
    decreases run
  {
    if run != [] {
      StepKeepsInv(c, s, run[0]);
      EveryRunKeepsInv(c, Do(c, s, run[0]), run[1..]);
    }
  }

  lemma NothingCompleted(replicas: seq<State>, p: Message -> bool)
    requires forall i :: 0 <= i < |replicas| ==> replicas[i].succeeded == [] && replicas[i].goroutines == []
    ensures CompletedAll(replicas, p) == 0
  {
  }

  lemma InitOk(starts: seq<int>)
    ensures Inv(Init(starts))
  {
    forall uid ensures Balanced(Init(starts), uid) {
      NothingCompleted(Init(starts).replicas, WithUid(uid));
    }
  }

  // ----- the results -----

  /** The completed messages carry pairwise distinct uids, and these are
      exactly the keys of the orders table. */
  ghost predicate OncePerUid(s: System) {
    forall uid :: CompletedAll(s.replicas, WithUid(uid)) == if uid in s.orders then 1 else 0
  }

  /** With no hypothesis: over every run, the completed messages with a uid are
      as many as it has rows (one or none) plus the commits lost for it. */
  lemma CompletionsBalanceRows(c: Config, starts: seq<int>, run: seq<Step>, uid: string)
    requires CanRun(c, Init(starts), run)
    ensures var s := Outcome(c, Init(starts), run);
            CompletedAll(s.replicas, WithUid(uid))
            == (if uid in s.orders then 1 else 0) + Occurrences(s.lost, uid)
  {
    InitOk(starts);
    EveryRunKeepsInv(c, Init(starts), run);
    assert Balanced(Outcome(c, Init(starts), run), uid);
  }

  /** Every commit of the run goes through. */
  predicate CommitsGoThrough(run: seq<Step>) {
    forall i :: 0 <= i < |run| && run[i].Commit? ==> run[i].ok
  }

  lemma {:induction false} NothingLostIff(c: Config, s: System, run: seq<Step>)
    requires CanRun(c, s, run)
    ensures Outcome(c, s, run).lost == [] <==> s.lost == [] && CommitsGoThrough(run)
    decreases run
  {
    if run != [] {
      NothingLostIff(c, Do(c, s, run[0]), run[1..]);
      assert forall i :: 0 < i < |run| ==> run[i] == run[1..][i - 1];
      assert CommitsGoThrough(run) <==> (run[0].Commit? ==> run[0].ok) && CommitsGoThrough(run[1..]);
    }
  }

  /** Over every run of any number of replicas, retries and repeated deliveries
      included, messages take effect once each exactly when every commit of the
      run goes through. */
  lemma EffectOnceIffCommitsGoThrough(c: Config, starts: seq<int>, run: seq<Step>)
    requires CanRun(c, Init(starts), run)
    ensures OncePerUid(Outcome(c, Init(starts), run)) <==> CommitsGoThrough(run)
  {
    var s := Outcome(c, Init(starts), run);
    NothingLostIff(c, Init(starts), run);
    if s.lost == [] {
      forall uid ensures CompletedAll(s.replicas, WithUid(uid)) == if uid in s.orders then 1 else 0 {
        CompletionsBalanceRows(c, starts, run, uid);
      }
    } else {
      CompletionsBalanceRows(c, starts, run, s.lost[0]);
      assert Occurrences(s.lost, s.lost[0]) >= 1;
    }
  }

  // ----- locks are open transactions -----

  /** An attempt of message `w` to save its order goes on or ends in this step. */
  predicate Concerns(c: Config, s: System, step: Step, w: Writer)
    requires CanStep(c, s, step)
  {
    !step.Plain? && step.r == w.replica && s.replicas[step.r].goroutines[step.g].msg.id == w.id
  }

  /** What the transaction of `w` holds after the run, told from the steps: the
      uid of the last attempt step of `w`, if that was an insert. `held` is what
      it holds before. */
  function OpenFor(c: Config, s: System, run: seq<Step>, w: Writer, held: Option<string>): Option<string>
    requires CanRun(c, s, run)
    decreases run
  {
    if run == [] then held
    else
      var l := run[0];
      var now := if !Concerns(c, s, l, w) then held
                 else if l.InsertOrder? then Some(KeyOf(s.replicas[l.r].goroutines[l.g].msg)) else None;
      OpenFor(c, Do(c, s, l), run[1..], w, now)
  }

  /** The goroutine that a lock belongs to. */
  ghost predicate Owns(p: State, g: nat, id: nat, uid: string) {
    && g < |p.goroutines| && p.goroutines[g].Processing?
    && p.goroutines[g].msg.id == id && KeyOf(p.goroutines[g].msg) == uid
  }

  ghost predicate OwnedLock(s: System, uid: string, w: Writer) {
    w.replica < |s.replicas| && exists g :: Owns(s.replicas[w.replica], g, w.id, uid)
  }

  /** Every lock belongs to a message that is being processed. */
  ghost predicate LocksOwned(s: System) {
    forall uid :: uid in s.locks ==> OwnedLock(s, uid, s.locks[uid])
  }

  lemma {:induction false} TwiceCounted(ids: seq<nat>, i: nat, j: nat)
    requires i < j < |ids| && ids[i] == ids[j]
    ensures Count(ids, ids[i]) >= 2
  {
    if i > 0 {
      TwiceCounted(ids[1..], i - 1, j - 1);
    } else {
      CountPresent(ids[1..], j - 1);
    }
  }

  lemma GoroutineUnique(p: State, i: nat, j: nat)
    requires Conserved(p) && i < |p.goroutines| && j < |p.goroutines|
    requires p.goroutines[i].msg.id == p.goroutines[j].msg.id
    ensures i == j
  {
    var id := p.goroutines[i].msg.id;
    assert Tally(p, id) <= 1;
    if i != j {
      TwiceCounted(GoroutineIds(p.goroutines), Min(i, j), Max(i, j));
    }
  }

  /** A goroutine goes on processing unless the step is its own outcome. */
  lemma StillProcessing(c: Config, p: State, l: Label, g: nat) returns (h: nat)
    requires Enabled(c, p, l) && g < |p.goroutines| && p.goroutines[g].Processing?
    requires l.Succeed? || l.Fail? ==> l.g != g
    ensures h < |Next(c, p, l).goroutines| && Next(c, p, l).goroutines[h] == p.goroutines[g]
  {
    h := g;
    if (l.Fail? || l.Push? || l.Ack?) && l.g < g && |Next(c, p, l).goroutines| < |p.goroutines| {
      h := g - 1;
    }
  }

  lemma LockStaysOwned(c: Config, s: System, step: Step, uid: string, w: Writer)
    requires CanStep(c, s, step) && Inv(s) && OwnedLock(s, uid, w)
    requires Concerns(c, s, step, w) ==> step.InsertOrder?
    ensures OwnedLock(Do(c, s, step), uid, w)
  {
    var p := s.replicas[w.replica];
    var g :| Owns(p, g, w.id, uid);
    if step.r == w.replica && Inner(step).Some? {
      var h := StillProcessing(c, p, Inner(step).value, g);
      assert Owns(Do(c, s, step).replicas[w.replica], h, w.id, uid);
    } else {
      assert Owns(Do(c, s, step).replicas[w.replica], g, w.id, uid);
    }
  }

  /** The lock of a message whose attempt this step ends is the one it holds. */
  lemma OwnLock(c: Config, s: System, step: Step, uid: string)
    requires CanStep(c, s, step) && Inv(s) && LocksOwned(s) && uid in s.locks
    requires Concerns(c, s, step, s.locks[uid])
    ensures KeyOf(s.replicas[step.r].goroutines[step.g].msg) == uid
    ensures step.FailAfter? || step.Commit?
  {
    var w := s.locks[uid];
    var p := s.replicas[w.replica];
    var g :| Owns(p, g, w.id, uid);
    GoroutineUnique(p, g, step.g);
  }

  lemma StepKeepsLocksOwned(c: Config, s: System, step: Step)
    requires CanStep(c, s, step) && Inv(s) && LocksOwned(s)
    ensures LocksOwned(Do(c, s, step))
  {
    var n := Do(c, s, step);
    forall uid | uid in n.locks ensures OwnedLock(n, uid, n.locks[uid]) {
      if uid in s.locks {
        if Concerns(c, s, step, s.locks[uid]) {
          OwnLock(c, s, step, uid);
          assert false;  // the step has released it
        } else {
          LockStaysOwned(c, s, step, uid, s.locks[uid]);
        }
      } else {
        assert Owns(n.replicas[step.r], step.g, n.locks[uid].id, uid);
      }
    }
  }

  ghost predicate HoldsJust(s: System, w: Writer, held: Option<string>) {
    forall uid :: uid in s.locks && s.locks[uid] == w <==> held == Some(uid)
  }

  lemma StepHoldsJust(c: Config, s: System, step: Step, w: Writer, held: Option<string>)
    requires CanStep(c, s, step) && Inv(s) && LocksOwned(s) && HoldsJust(s, w, held)
    ensures !Concerns(c, s, step, w) ==> HoldsJust(Do(c, s, step), w, held)
    ensures Concerns(c, s, step, w) ==>
              HoldsJust(Do(c, s, step), w,
                        if step.InsertOrder? then Some(KeyOf(s.replicas[step.r].goroutines[step.g].msg)) else None)
  {
    if held.Some? && Concerns(c, s, step, w) {
      OwnLock(c, s, step, held.value);
    }
  }

  lemma {:induction false} RunHoldsJust(c: Config, s: System, run: seq<Step>, w: Writer, held: Option<string>)
    requires CanRun(c, s, run) && Inv(s) && LocksOwned(s) && HoldsJust(s, w, held)
    ensures LocksOwned(Outcome(c, s, run)) && HoldsJust(Outcome(c, s, run), w, OpenFor(c, s, run, w, held))
    decreases run
  {
    if run != [] {
      var l, n := run[0], Do(c, s, run[0]);
      StepKeepsInv(c, s, l);
      StepKeepsLocksOwned(c, s, l);
      StepHoldsJust(c, s, l, w, held);
      var now := if !Concerns(c, s, l, w) then held
                 else if l.InsertOrder? then Some(KeyOf(s.replicas[l.r].goroutines[l.g].msg)) else None;
      RunHoldsJust(c, n, run[1..], w, now);
    }
  }

  /** Over every run the locks are the open transactions: a message holds a uid
      exactly when the last step of its attempts was the insert of that uid. And
      whoever holds a lock is being processed. */
  lemma LocksAreOpen(c: Config, starts: seq<int>, run: seq<Step>, w: Writer, uid: string)
    requires CanRun(c, Init(starts), run)
    ensures var s := Outcome(c, Init(starts), run);
            && (uid in s.locks && s.locks[uid] == w <==> OpenFor(c, Init(starts), run, w, None) == Some(uid))
            && (uid in s.locks ==> OwnedLock(s, uid, s.locks[uid]))
  {
    InitOk(starts);
    RunHoldsJust(c, Init(starts), run, w, None);
  }

  /** Every message that is being processed and has this key can insert it. */
  ghost predicate Insertable(c: Config, s: System, key: string) {
    forall r: nat, g: nat ::
      r < |s.replicas| && g < |s.replicas[r].goroutines| && s.replicas[r].goroutines[g].Processing?
      && KeyFits(s.replicas[r].goroutines[g].msg) && KeyOf(s.replicas[r].goroutines[g].msg) == key
      ==> CanStep(c, s, InsertOrder(r, g))
  }

  lemma FreeIsInsertable(c: Config, s: System, key: string)
    requires key !in s.locks && key !in s.orders
    ensures Insertable(c, s, key)
  {
  }

  lemma EndReleases(c: Config, s: System, end: Step)
    requires Inv(s) && CanStep(c, s, end) && (end.FailAfter? || end.Commit?)
    ensures var key, n := KeyOf(s.replicas[end.r].goroutines[end.g].msg), Do(c, s, end);
            && n.locks.Keys == s.locks.Keys - {key}
            && (end.FailAfter? ==> key !in n.orders)
  {
  }

  /** A rollback and either commit free the uid. After a rollback every message
      with that uid, the retried one included, can insert it; and what commits
      next has inserted it in an attempt of its own. */
  lemma EndFreesUid(c: Config, starts: seq<int>, run: seq<Step>, end: Step)
    requires CanRun(c, Init(starts), run) && CanStep(c, Outcome(c, Init(starts), run), end)
    requires end.FailAfter? || end.Commit?
    ensures var s := Outcome(c, Init(starts), run);
            var m, n := s.replicas[end.r].goroutines[end.g].msg, Do(c, s, end);
            && OpenFor(c, Init(starts), run, Writer(end.r, m.id), None) == Some(KeyOf(m))
            && n.locks.Keys == s.locks.Keys - {KeyOf(m)}
            && (end.FailAfter? ==> KeyOf(m) !in n.orders && Insertable(c, n, KeyOf(m)))
  {
    var s := Outcome(c, Init(starts), run);
    var m := s.replicas[end.r].goroutines[end.g].msg;
    LocksAreOpen(c, starts, run, Writer(end.r, m.id), KeyOf(m));
    InitOk(starts);
    EveryRunKeepsInv(c, Init(starts), run);
    EndReleases(c, s, end);
    if end.FailAfter? {
      FreeIsInsertable(c, Do(c, s, end), KeyOf(m));
    }
  }

  lemma OutcomesIf(c: Config, s: System, r: nat, g: nat, ok: bool)
    requires r < |s.replicas| && g < |s.replicas[r].goroutines| && s.replicas[r].goroutines[g].Processing?
    ensures var held := Holds(s, r, s.replicas[r].goroutines[g].msg);
            && (CanStep(c, s, FailAfter(r, g)) <==> held) && (CanStep(c, s, Commit(r, g, ok)) <==> held)
            && (CanStep(c, s, FailBefore(r, g)) <==> !held)
  {
  }

  /** In every reachable state a message that is being processed can fail, with a
      rollback exactly when its own last step was the insert, and only then can
      it succeed. */
  lemma OutcomesPossible(c: Config, starts: seq<int>, run: seq<Step>, r: nat, g: nat, ok: bool)
    requires CanRun(c, Init(starts), run)
    requires var s := Outcome(c, Init(starts), run);
             r < |s.replicas| && g < |s.replicas[r].goroutines| && s.replicas[r].goroutines[g].Processing?
    ensures var s := Outcome(c, Init(starts), run);
            var m := s.replicas[r].goroutines[g].msg;
            var inserted := OpenFor(c, Init(starts), run, Writer(r, m.id), None) == Some(KeyOf(m));
            && (CanStep(c, s, FailAfter(r, g)) <==> inserted)
            && (CanStep(c, s, Commit(r, g, ok)) <==> inserted)
            && (CanStep(c, s, FailBefore(r, g)) <==> !inserted)
  {
    var s := Outcome(c, Init(starts), run);
    var m := s.replicas[r].goroutines[g].msg;
    LocksAreOpen(c, starts, run, Writer(r, m.id), KeyOf(m));
    OutcomesIf(c, s, r, g, ok);
  }

  /** What the run is to the receiver of replica `r`, told from the steps: a
      commit is a success of the processing, a failed save a failure. */
  function ReceiverRun(run: seq<Step>, r: nat): seq<Label> {
    if run == [] then []
    else
      (if run[0].r != r then []
       else match run[0]
            case Plain(_, l) => [l]
            case InsertOrder(_, _) => []
            case FailBefore(_, g) => [Fail(g)]
            case FailAfter(_, g) => [Fail(g)]
            case Commit(_, g, _) => [Succeed(g)])
      + ReceiverRun(run[1..], r)
  }

  /** Each replica runs as the receiver does by itself, so all that is known of
      its runs holds here as well. */
  lemma {:induction false} ReplicaRunsReceiver(c: Config, s: System, run: seq<Step>, r: nat)
    requires CanRun(c, s, run) && r < |s.replicas|
    ensures var e := Outcome(c, s, run);
            && |e.replicas| == |s.replicas|
            && Legal(c, s.replicas[r], ReceiverRun(run, r))
            && e.replicas[r] == After(c, s.replicas[r], ReceiverRun(run, r))
    decreases run
  {
    if run != [] {
      var n := Do(c, s, run[0]);
      var rest := ReceiverRun(run[1..], r);
      ReplicaRunsReceiver(c, n, run[1..], r);
      if run[0].r == r && !run[0].InsertOrder? {
        var l := ReceiverRun(run, r)[0];
        assert ReceiverRun(run, r) == [l] + rest;
        Receiver.Prepend(c, s.replicas[r], l, rest);
      } else {
        assert ReceiverRun(run, r) == [] + rest == rest;
      }
    }
  }

  /** Who wrote the row of a uid, told from the commits. */
  function RowBy(c: Config, s: System, run: seq<Step>, uid: string, before: Option<Writer>): Option<Writer>
    requires CanRun(c, s, run)
    decreases run
  {
    if run == [] then before
    else
      var l := run[0];
      var now := if l.Commit? && l.ok && KeyOf(s.replicas[l.r].goroutines[l.g].msg) == uid
                 then Some(Writer(l.r, s.replicas[l.r].goroutines[l.g].msg.id)) else before;
      RowBy(c, Do(c, s, l), run[1..], uid, now)
  }

  lemma {:induction false} RowsAreCommits(c: Config, s: System, run: seq<Step>, uid: string, before: Option<Writer>)
    requires CanRun(c, s, run) && before == if uid in s.orders then Some(s.orders[uid]) else None
    ensures var e := Outcome(c, s, run);
            RowBy(c, s, run, uid, before) == if uid in e.orders then Some(e.orders[uid]) else None
    decreases run
  {
    if run != [] {
      var l := run[0];
      var now := if l.Commit? && l.ok && KeyOf(s.replicas[l.r].goroutines[l.g].msg) == uid
                 then Some(Writer(l.r, s.replicas[l.r].goroutines[l.g].msg.id)) else before;
      RowsAreCommits(c, Do(c, s, l), run[1..], uid, now);
    }
  }

  // ----- a lost commit -----

  lemma Prepend(c: Config, s: System, step: Step, rest: seq<Step>)
    requires CanStep(c, s, step) && CanRun(c, Do(c, s, step), rest)
    ensures CanRun(c, s, [step] + rest) && Outcome(c, s, [step] + rest) == Outcome(c, Do(c, s, step), rest)
  {
    assert ([step] + rest)[1..] == rest;
  }

  /** A message is read and starts to be processed; then `rest`. */
  function ReadFirst(r: nat, v: Order, rest: seq<Step>): seq<Step> {
    [Plain(r, SkipRetries)] + ([Plain(r, ReadFresh(v))] + ([Plain(r, Spawn)] + rest))
  }

  /** The message of goroutine 0 is inserted and committed; then `rest`. */
  function Effect(r: nat, ok: bool, rest: seq<Step>): seq<Step> {
    [InsertOrder(r, 0)] + ([Commit(r, 0, ok)] + rest)
  }

  function FirstMessage(r: nat, v: Order, ok: bool, rest: seq<Step>): seq<Step> {
    ReadFirst(r, v, Effect(r, ok, rest))
  }

  /** `n` is `s` after a commit for `uid` by the first message of replica `r`. */
  ghost predicate Committed(s: System, n: System, r: nat, uid: string, ok: bool) {
    && |n.replicas| == |s.replicas|
    && (forall q :: 0 <= q < |s.replicas| && q != r ==> n.replicas[q] == s.replicas[q])
    && n.locks == s.locks
    && n.orders == (if ok then s.orders[uid := Writer(r, 0)] else s.orders)
    && n.lost == (if ok then s.lost else s.lost + [uid])
  }

  /** `run` leads from `s` to `n` and goes on from there with `rest`. */
  ghost predicate LeadsTo(c: Config, s: System, run: seq<Step>, n: System, rest: seq<Step>) {
    CanRun(c, n, rest) ==> CanRun(c, s, run) && Outcome(c, s, run) == Outcome(c, n, rest)
  }

  lemma EffectRuns(c: Config, s: System, r: nat, m: Message, ok: bool, rest: seq<Step>) returns (n: System)
    requires r < |s.replicas| && s.replicas[r].goroutines == [Processing(m)] && m.id == 0
    requires KeyFits(m) && KeyOf(m) !in s.locks && KeyOf(m) !in s.orders
    ensures Committed(s, n, r, KeyOf(m), ok) && LeadsTo(c, s, Effect(r, ok, rest), n, rest)
  {
    var locked := Do(c, s, InsertOrder(r, 0));
    assert locked.locks == s.locks[KeyOf(m) := Writer(r, 0)];
    assert locked.locks - {KeyOf(m)} == s.locks;
    n := Do(c, locked, Commit(r, 0, ok));
    if CanRun(c, n, rest) {
      Prepend(c, locked, Commit(r, 0, ok), rest);
      Prepend(c, s, InsertOrder(r, 0), [Commit(r, 0, ok)] + rest);
    }
  }

  /** Only replica `r` differs. */
  ghost predicate OnlyReplica(s: System, n: System, r: nat) {
    && |n.replicas| == |s.replicas|
    && (forall q :: 0 <= q < |s.replicas| && q != r ==> n.replicas[q] == s.replicas[q])
    && n.locks == s.locks && n.orders == s.orders && n.lost == s.lost
  }

  lemma ReadFirstRuns(c: Config, s: System, r: nat, v: Order, start: int, rest: seq<Step>) returns (n: System)
    requires r < |s.replicas| && s.replicas[r] == Receiver.Init(start)
    ensures LeadsTo(c, s, ReadFirst(r, v, rest), n, rest) && OnlyReplica(s, n, r)
    ensures var p := n.replicas[r];
            && p.goroutines == [Processing(NewFreshMessage(0, v))]
            && p.consumer.Idle? && p.retryChan == [] && p.now == start
  {
    var s1 := Do(c, s, Plain(r, SkipRetries));
    var s2 := Do(c, s1, Plain(r, ReadFresh(v)));
    n := Do(c, s2, Plain(r, Spawn));
    assert n.replicas[r].goroutines == [Processing(NewFreshMessage(0, v))];
    if CanRun(c, n, rest) {
      Prepend(c, s2, Plain(r, Spawn), rest);
      Prepend(c, s1, Plain(r, ReadFresh(v)), [Plain(r, Spawn)] + rest);
      Prepend(c, s, Plain(r, SkipRetries), [Plain(r, ReadFresh(v))] + ([Plain(r, Spawn)] + rest));
    }
  }

  lemma FirstMessageRuns(c: Config, s: System, r: nat, v: Order, ok: bool, start: int, rest: seq<Step>)
    returns (n: System)
    requires r < |s.replicas| && s.replicas[r] == Receiver.Init(start)
    requires var m := NewFreshMessage(0, v); KeyFits(m) && KeyOf(m) !in s.locks && KeyOf(m) !in s.orders
    ensures Committed(s, n, r, KeyOf(NewFreshMessage(0, v)), ok)
    ensures LeadsTo(c, s, FirstMessage(r, v, ok, rest), n, rest)
  {
    var s1 := ReadFirstRuns(c, s, r, v, start, Effect(r, ok, rest));
    n := EffectRuns(c, s1, r, NewFreshMessage(0, v), ok, rest);
  }

  /** One order is delivered to two replicas. The first commit fails and is
      reported as a success all the same, the second one goes through: two
      messages are completed, with one row, written by the second. */
  lemma LostCommitCompletesTwice(c: Config, start: int, other: int, v: Order)
    requires KeyFits(NewFreshMessage(0, v))
    ensures var run, uid := FirstMessage(0, v, false, FirstMessage(1, v, true, [])), KeyOf(NewFreshMessage(0, v));
            && CanRun(c, Init([start, other]), run)
            && var s := Outcome(c, Init([start, other]), run);
               && s.orders == map[uid := Writer(1, 0)] && s.lost == [uid]
               && CompletedAll(s.replicas, WithUid(uid)) == 2
               && !OncePerUid(s)
  {
    var uid, s0 := KeyOf(NewFreshMessage(0, v)), Init([start, other]);
    var second := FirstMessage(1, v, true, []);
    var s1 := FirstMessageRuns(c, s0, 0, v, false, start, second);
    var s2 := FirstMessageRuns(c, s1, 1, v, true, other, []);
    CompletionsBalanceRows(c, [start, other], FirstMessage(0, v, false, second), uid);
    assert [] + [uid] == [uid] && Occurrences([uid], uid) == 1;
  }

  /** The attempt of goroutine 0 inserts the order row and is then rolled back;
      the message goes to the retry channel. */
  function RollBack(r: nat, rest: seq<Step>): seq<Step> {
    [InsertOrder(r, 0)] + ([FailAfter(r, 0)] + ([Plain(r, Push(0))] + rest))
  }

  lemma RollBackRuns(c: Config, s: System, r: nat, m: Message, rest: seq<Step>) returns (n: System)
    requires r < |s.replicas| && s.replicas[r].goroutines == [Processing(m)] && s.replicas[r].retryChan == []
    requires m.totalTries < c.maxRetries && c.capacity >= 1
    requires KeyFits(m) && KeyOf(m) !in s.locks && KeyOf(m) !in s.orders
    ensures LeadsTo(c, s, RollBack(r, rest), n, rest) && OnlyReplica(s, n, r)
    ensures var p, was := n.replicas[r], s.replicas[r];
            && p.consumer == was.consumer && p.goroutines == [] && p.now == was.now && |p.retryChan| == 1
            && p.retryChan[0].id == m.id && p.retryChan[0].value == m.value
            && p.retryChan[0].retryAfter == was.now + c.backoff
  {
    var x := NewRetriedMessage(m, s.replicas[r].now, c.backoff);
    var s1 := Do(c, s, InsertOrder(r, 0));
    assert s1.locks == s.locks[KeyOf(m) := Writer(r, m.id)] && s1.locks - {KeyOf(m)} == s.locks;
    var s2 := Do(c, s1, FailAfter(r, 0));
    assert s2.replicas[r].goroutines == [Offering(m, x)] && s2.locks == s.locks;
    n := Do(c, s2, Plain(r, Push(0)));
    assert n.replicas[r].retryChan == [x];
    if CanRun(c, n, rest) {
      Prepend(c, s2, Plain(r, Push(0)), rest);
      Prepend(c, s1, FailAfter(r, 0), [Plain(r, Push(0))] + rest);
      Prepend(c, s, InsertOrder(r, 0), [FailAfter(r, 0)] + ([Plain(r, Push(0))] + rest));
    }
  }

  /** The retry of the only message, when it is due: it inserts and commits. */
  function Retry(r: nat, wait: nat): seq<Step> {
    [Plain(r, Tick(wait))] + ([Plain(r, Receive)] + ([Plain(r, Release)] + ([Plain(r, Spawn)] + Effect(r, true, []))))
  }

  lemma RetryRuns(c: Config, s: System, r: nat, m: Message, wait: nat)
    requires r < |s.replicas| && s.replicas[r].consumer.Idle? && s.replicas[r].goroutines == []
    requires s.replicas[r].retryChan == [m] && s.replicas[r].now + wait > m.retryAfter && m.id == 0
    requires KeyFits(m) && KeyOf(m) !in s.locks && KeyOf(m) !in s.orders
    ensures CanRun(c, s, Retry(r, wait))
    ensures Outcome(c, s, Retry(r, wait)).orders == s.orders[KeyOf(m) := Writer(r, 0)]
  {
    var s1 := Do(c, s, Plain(r, Tick(wait)));
    var s2 := Do(c, s1, Plain(r, Receive));
    var s3 := Do(c, s2, Plain(r, Release));
    var s4 := Do(c, s3, Plain(r, Spawn));
    assert s4.replicas[r].goroutines == [Processing(m)];
    var n := EffectRuns(c, s4, r, m, true, []);
    Prepend(c, s3, Plain(r, Spawn), Effect(r, true, []));
    Prepend(c, s2, Plain(r, Release), [Plain(r, Spawn)] + Effect(r, true, []));
    Prepend(c, s1, Plain(r, Receive), [Plain(r, Release)] + ([Plain(r, Spawn)] + Effect(r, true, [])));
    Prepend(c, s, Plain(r, Tick(wait)),
            [Plain(r, Receive)] + ([Plain(r, Release)] + ([Plain(r, Spawn)] + Effect(r, true, []))));
  }

  /** A rollback after the order row leaves nothing in the way of the retry: for
      every order whose uid fits, the second attempt stores the order. */
  lemma RetryAfterRollbackStores(c: Config, start: int, v: Order) returns (wait: nat)
    requires KeyFits(NewFreshMessage(0, v)) && c.maxRetries >= 1 && c.capacity >= 1
    ensures var run := ReadFirst(0, v, RollBack(0, Retry(0, wait)));
            && CanRun(c, Init([start]), run)
            && Outcome(c, Init([start]), run).orders == map[KeyOf(NewFreshMessage(0, v)) := Writer(0, 0)]
  {
    wait := Max(c.backoff, 0) + 1;
    var s1 := ReadFirstRuns(c, Init([start]), 0, v, start, RollBack(0, Retry(0, wait)));
    var s2 := RollBackRuns(c, s1, 0, NewFreshMessage(0, v), Retry(0, wait));
    var m := s2.replicas[0].retryChan[0];
    assert s2.replicas[0].retryChan == [m];
    RetryRuns(c, s2, 0, m, wait);
  }

  /** A uid that its column takes is its own key. */
  lemma StoredUidIsKey(v: Order)
    requires Storage.OrderFits(v)
    ensures KeyFits(NewFreshMessage(0, v)) && KeyOf(NewFreshMessage(0, v)) == v.orderUID
  {
  }

  lemma CountIfIsCount(ms: seq<Message>, id: nat)
    ensures CountIf(ms, WithId(id)) == Count(Ids(ms), id)
  {
    if ms != [] {
      CountIfIsCount(ms[1..], id);
      assert Ids(ms)[1..] == Ids(ms[1..]);
    }
  }

  lemma AckCountIfAtMost(gs: seq<Goroutine>, id: nat)
    ensures AckCountIf(gs, WithId(id)) <= Count(GoroutineIds(gs), id)
  {
    if gs != [] {
      AckCountIfAtMost(gs[1..], id);
      assert GoroutineIds(gs)[1..] == GoroutineIds(gs[1..]);
    }
  }

  /** A message that waits for a retry has left no row: none of its own
      attempts was committed. */
  lemma RetriedLeftNoRow(c: Config, starts: seq<int>, run: seq<Step>, r: nat, i: nat, uid: string)
    requires CanRun(c, Init(starts), run)
    requires var s := Outcome(c, Init(starts), run);
             r < |s.replicas| && i < |s.replicas[r].retryChan| && uid in s.orders
    ensures var s := Outcome(c, Init(starts), run);
            s.orders[uid] != Writer(r, s.replicas[r].retryChan[i].id)
  {
    var s := Outcome(c, Init(starts), run);
    InitOk(starts);
    EveryRunKeepsInv(c, Init(starts), run);
    var p, id := s.replicas[r], s.replicas[r].retryChan[i].id;
    assert Tally(p, id) <= 1;
    CountPresent(Ids(p.retryChan), i);
    CountIfIsCount(p.succeeded, id);
    AckCountIfAtMost(p.goroutines, id);
    assert WrittenByCompleted(s, s.orders[uid]);
  }
}
