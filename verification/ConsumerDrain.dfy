/**
 * The consumers can always finish: from any state in which every message decodes, whatever the
 * consumers have in hand, a schedule without crashes consumes every partition to its end.
 */
module ConsumerDrain {
  import opened Prelude
  import opened Projections
  import opened ConsumerMachine
  import opened ConsumerService

  // ---------------------------------------------------------------- schedules of consumers alone

  /** Nothing is appended and nobody crashes. */
  predicate Benign(a: Action) { !a.Append? && !a.Crash? }

  /** The schedule is benign, starts every reader at its committed offset, and ends in s'. */
  ghost predicate Leads(s: State, actions: seq<Action>, s': State) {
    && Exec(s, actions) == s' && AllFromCommitted(s, actions)
    && forall n :: 0 <= n < |actions| ==> Benign(actions[n])
  }

  lemma LeadsOneMore(s: State, actions: seq<Action>, s': State, a: Action)
    requires Leads(s, actions, s') && Benign(a) && FromCommitted(s', a)
    ensures Leads(s, actions + [a], Step(s', a))
  {
    var all := actions + [a];
    assert all[..|actions|] == actions;
    forall n | 0 <= n < |all| ensures FromCommitted(Exec(s, all[..n]), all[n]) {
      assert n < |actions| ==> all[..n] == actions[..n];
    }
  }

  /** What stays while consumers work: the topic. */
  ghost predicate SameTopic(s: State, s': State) {
    s'.c == s.c && s'.log == s.log && s'.catalog == s.catalog && |s'.consumers| == |s.consumers|
  }

  ghost predicate AllDecode(s: State) {
    forall k, j :: 0 <= k < |s.log| && 0 <= j < |s.log[k]| ==> Decodes(s.c, s.log[k][j])
  }

  /** A benign step keeps the invariants and the topic. */
  lemma BenignStep(s: State, a: Action)
    requires SinkInv(s) && Benign(a) && FromCommitted(s, a)
    ensures SinkInv(Step(s, a)) && SameTopic(s, Step(s, a))
  {
    SinkInvStep(s, a);
    StepIsByOne(s, a);
  }

  // ---------------------------------------------------------------- finishing what is in hand

  function Work(pc: Pc): nat {
    match pc
    case Got(_, _) => 4
    case Registered(_, _) => 3
    case Applied(_, _, _) => 2
    case Acking(_, _) => 1
    case _ => 0
  }

  function WorkLeft(s: State): nat {
    Total(seq(|s.consumers|, i requires 0 <= i < |s.consumers| => Work(s.consumers[i].pc)))
  }

  ghost predicate NobodyInTransaction(s: State) {
    forall i :: 0 <= i < |s.consumers| ==> !InTransaction(s.consumers[i].pc)
  }

  ghost predicate NothingInHand(s: State) {
    forall i :: 0 <= i < |s.consumers| ==> !InHand(s.consumers[i].pc)
  }

  lemma NothingHeld(s: State)
    requires HeldOk(s) && NobodyInTransaction(s)
    ensures s.held == map[]
  {
  }

  /** The next statement of a consumer that has a message in hand. */
  function NextOf(pc: Pc, i: nat): Action
    requires InHand(pc)
  {
    match pc
    case Got(_, _) => Register(i)
    case Registered(_, _) => Apply(i)
    case Applied(_, _, _) => Commit(i)
    case Acking(_, _) => Ack(i, true)
  }

  lemma NextIsProgress(s: State, i: nat)
    requires SinkInv(s) && AllDecode(s) && i < |s.consumers| && InHand(s.consumers[i].pc)
    requires s.consumers[i].pc.Got? ==> s.held == map[]
    ensures var s' := Step(s, NextOf(s.consumers[i].pc, i));
      |s'.consumers| == |s.consumers| && Work(s'.consumers[i].pc) < Work(s.consumers[i].pc)
  {
    assert TransactionOk(s, i);
  }

  lemma WorkFalls(s: State, s': State, i: nat)
    requires i < |s.consumers| == |s'.consumers| && Work(s'.consumers[i].pc) < Work(s.consumers[i].pc)
    requires forall j :: 0 <= j < |s.consumers| && j != i ==> s'.consumers[j] == s.consumers[j]
    ensures WorkLeft(s') < WorkLeft(s)
  {
    var w := seq(|s.consumers|, i requires 0 <= i < |s.consumers| => Work(s.consumers[i].pc));
    TotalUpdate(w, i, Work(s'.consumers[i].pc));
    assert w[i := Work(s'.consumers[i].pc)] ==
      seq(|s'.consumers|, i requires 0 <= i < |s'.consumers| => Work(s'.consumers[i].pc));
  }

  /** Somebody who can go on: whoever is in a transaction, or, if nobody is, anybody. */
  lemma SomeoneCanGoOn(s: State) returns (i: nat)
    requires SinkInv(s) && !NothingInHand(s)
    ensures i < |s.consumers| && InHand(s.consumers[i].pc) && (s.consumers[i].pc.Got? ==> s.held == map[])
  {
    if NobodyInTransaction(s) {
      NothingHeld(s);
      i :| 0 <= i < |s.consumers| && InHand(s.consumers[i].pc);
    } else {
      i :| 0 <= i < |s.consumers| && InTransaction(s.consumers[i].pc);
    }
  }

  lemma Settle(s0: State, before: seq<Action>, s: State) returns (actions: seq<Action>, s': State)
    requires Leads(s0, before, s) && SinkInv(s) && AllDecode(s)
    ensures Leads(s0, actions, s') && SinkInv(s') && SameTopic(s, s') && NothingInHand(s')
    decreases WorkLeft(s)
  {
    if NothingInHand(s) {
      actions, s' := before, s;
    } else {
      var i := SomeoneCanGoOn(s);
      var a := NextOf(s.consumers[i].pc, i);
      NextIsProgress(s, i);
      BenignStep(s, a);
      StepIsByOne(s, a);
      WorkFalls(s, Step(s, a), i);
      LeadsOneMore(s0, before, s, a);
      actions, s' := Settle(s0, before + [a], Step(s, a));
    }
  }

  // ---------------------------------------------------------------- reading to the end

  function Gap(s: State, k: nat): nat
    requires k < |s.log|
  {
    if k < |s.committed| && s.committed[k] <= |s.log[k]| then |s.log[k]| - s.committed[k] else 0
  }

  function Behind(s: State): nat {
    Total(seq(|s.log|, k requires 0 <= k < |s.log| => Gap(s, k)))
  }

  /** Consumer 0 is free to read and no event is registered by anybody. */
  ghost predicate Free(s: State) {
    |s.consumers| > 0 && s.consumers[0].pc.Idle? && s.held == map[]
  }

  ghost predicate AtEnd(s: State) {
    |s.committed| == |s.log| && forall k :: 0 <= k < |s.log| ==> s.committed[k] == |s.log[k]|
  }

  /** Start at the committed offset of partition k and take the next message. */
  function Fetched(s: State, k: nat): State
    requires |s.consumers| > 0 && k < |s.committed|
  {
    var j := s.committed[k];
    s.(consumers := s.consumers[0 := Consumer(s.consumers[0].positions[k := j + 1], Got(k, j))])
  }

  lemma Fetch(s: State, k: nat)
    requires Free(s) && k < |s.log| == |s.committed| && s.committed[k] < |s.log[k]|
    ensures Step(Step(s, Assign(0, k, s.committed[k])), Deliver(0, k)) == Fetched(s, k)
    ensures HasMessage(Fetched(s, k), 0)
  {
    var j := s.committed[k];
    var s1 := s.(consumers := s.consumers[0 := Consumer(s.consumers[0].positions[k := j], Idle)]);
    assert Step(s, Assign(0, k, j)) == s1;
    assert s1.consumers[0].positions[k := j + 1] == s.consumers[0].positions[k := j + 1];
    assert s1.consumers[0 := Consumer(s.consumers[0].positions[k := j + 1], Got(k, j))] == Fetched(s, k).consumers;
  }

  /** The message is processed and acknowledged: partition k is one further. */
  lemma Consume(s: State, k: nat)
    requires Free(s) && AllDecode(s) && k < |s.log| == |s.committed| && s.committed[k] < |s.log[k]|
    ensures var s' := FourSteps(Fetched(s, k), 0, true);
      s'.committed == s.committed[k := s.committed[k] + 1] && |s'.consumers| == |s.consumers|
        && s'.consumers[0].pc.Idle?
  {
    Fetch(s, k);
    ProcessMessageIsARun(Fetched(s, k), 0, true);
  }

  lemma GoOn(s0: State, before: seq<Action>, s: State, a: Action)
    requires Leads(s0, before, s) && SinkInv(s) && Benign(a) && FromCommitted(s, a)
    ensures Leads(s0, before + [a], Step(s, a)) && SinkInv(Step(s, a)) && SameTopic(s, Step(s, a))
  {
    LeadsOneMore(s0, before, s, a);
    BenignStep(s, a);
  }

  function Three(s: State, a: seq<Action>): State
    requires |a| == 3
  {
    Step(Step(Step(s, a[0]), a[1]), a[2])
  }

  lemma ThreeSteps(s0: State, before: seq<Action>, s: State, a: seq<Action>)
    requires Leads(s0, before, s) && SinkInv(s) && |a| == 3 && FromCommitted(s, a[0])
    requires forall n :: 0 <= n < 3 ==> Benign(a[n]) && (n > 0 ==> !a[n].Assign?)
    ensures Leads(s0, before + a, Three(s, a)) && SinkInv(Three(s, a)) && SameTopic(s, Three(s, a))
  {
    GoOn(s0, before, s, a[0]);
    GoOn(s0, before + [a[0]], Step(s, a[0]), a[1]);
    GoOn(s0, before + [a[0]] + [a[1]], Step(Step(s, a[0]), a[1]), a[2]);
    assert before + [a[0]] + [a[1]] + [a[2]] == before + a;
  }

  /** Assign, deliver, register; then apply, commit, acknowledge. */
  function FirstHalf(s: State, k: nat): seq<Action>
    requires k < |s.committed|
  {
    [Assign(0, k, s.committed[k]), Deliver(0, k), Register(0)]
  }

  const SECOND_HALF: seq<Action> := [Apply(0), Commit(0), Ack(0, true)]

  lemma HalvesAreFourSteps(s: State, k: nat)
    requires Free(s) && k < |s.log| == |s.committed| && s.committed[k] < |s.log[k]|
    ensures Three(Three(s, FirstHalf(s, k)), SECOND_HALF) == FourSteps(Fetched(s, k), 0, true)
  {
    Fetch(s, k);
  }

  lemma FirstHalfIsBenign(s: State, k: nat)
    requires k < |s.committed|
    ensures FromCommitted(s, FirstHalf(s, k)[0])
    ensures forall n :: 0 <= n < 3 ==> Benign(FirstHalf(s, k)[n]) && (n > 0 ==> !FirstHalf(s, k)[n].Assign?)
  {
  }

  lemma ReadOneLeads(s0: State, before: seq<Action>, s: State, k: nat)
    requires Leads(s0, before, s) && SinkInv(s)
    requires Free(s) && k < |s.log| == |s.committed| && s.committed[k] < |s.log[k]|
    ensures var s' := FourSteps(Fetched(s, k), 0, true);
      Leads(s0, before + FirstHalf(s, k) + SECOND_HALF, s') && SinkInv(s') && SameTopic(s, s')
  {
    FirstHalfIsBenign(s, k);
    ThreeSteps(s0, before, s, FirstHalf(s, k));
    ThreeSteps(s0, before + FirstHalf(s, k), Three(s, FirstHalf(s, k)), SECOND_HALF);
    HalvesAreFourSteps(s, k);
  }

  lemma GapCloses(s: State, s': State, k: nat)
    requires s'.log == s.log && k < |s.log| == |s.committed| && s.committed[k] < |s.log[k]|
    requires s'.committed == s.committed[k := s.committed[k] + 1]
    ensures Behind(s') < Behind(s)
  {
    var g := seq(|s.log|, k requires 0 <= k < |s.log| => Gap(s, k));
    TotalUpdate(g, k, Gap(s', k));
    assert g[k := Gap(s', k)] == seq(|s'.log|, k requires 0 <= k < |s'.log| => Gap(s', k));
  }

  lemma StillFree(s: State, s': State)
    requires SinkInv(s') && |s'.consumers| == |s.consumers| > 0 && s'.consumers[0].pc.Idle? && NothingInHand(s')
    ensures Free(s')
  {
    NothingHeld(s');
  }

  lemma OthersStayIdle(s: State, s': State, k: nat)
    requires NothingInHand(s) && SinkInv(s) && Free(s) && k < |s.log| == |s.committed| && s.committed[k] < |s.log[k]|
      && AllDecode(s)
    requires SinkInv(Fetched(s, k))
    requires s' == FourSteps(Fetched(s, k), 0, true)
    ensures NothingInHand(s')
  {
    Consume(s, k);
    var f := Fetched(s, k);
    FourKeepOthers(f, 0);
  }

  lemma FourKeepOthers(s: State, i: nat)
    requires SinkInv(s) && i < |s.consumers|
    ensures var s' := FourSteps(s, i, true);
      && |s'.consumers| == |s.consumers|
      && forall j :: 0 <= j < |s.consumers| && j != i ==> s'.consumers[j] == s.consumers[j]
  {
    var s1 := Step(s, Register(i));
    var s2, s3 := Step(s1, Apply(i)), Step(Step(s1, Apply(i)), Commit(i));
    StepIsByOne(s, Register(i));
    BenignStep(s, Register(i));
    StepIsByOne(s1, Apply(i));
    BenignStep(s1, Apply(i));
    StepIsByOne(s2, Commit(i));
    BenignStep(s2, Commit(i));
    StepIsByOne(s3, Ack(i, true));
  }

  lemma FetchKeepsInv(s: State, k: nat)
    requires SinkInv(s) && Free(s) && k < |s.log| == |s.committed| && s.committed[k] < |s.log[k]|
    ensures SinkInv(Fetched(s, k))
  {
    var a := Assign(0, k, s.committed[k]);
    Fetch(s, k);
    SinkInvStep(s, a);
    SinkInvStep(Step(s, a), Deliver(0, k));
  }

  lemma ReadToEnd(s0: State, before: seq<Action>, s: State) returns (actions: seq<Action>, s': State)
    requires Leads(s0, before, s) && SinkInv(s) && AllDecode(s) && Free(s) && NothingInHand(s)
    ensures Leads(s0, actions, s') && SinkInv(s') && SameTopic(s, s') && AtEnd(s')
    decreases Behind(s)
  {
    assert AckSafe(s);
    if AtEnd(s) {
      actions, s' := before, s;
    } else {
      var k :| 0 <= k < |s.log| && s.committed[k] != |s.log[k]|;
      assert DoneBelow(s, k, s.committed[k]);
      var next := FourSteps(Fetched(s, k), 0, true);
      ReadOneLeads(s0, before, s, k);
      Consume(s, k);
      FetchKeepsInv(s, k);
      OthersStayIdle(s, next, k);
      StillFree(s, next);
      GapCloses(s, next, k);
      actions, s' := ReadToEnd(s0, before + FirstHalf(s, k) + SECOND_HALF, next);
    }
  }

  /** From any state of the consumers, all partitions can be consumed to their end, without a crash. */
  lemma EverythingCanBeConsumed(s: State) returns (actions: seq<Action>, s': State)
    requires SinkInv(s) && AllDecode(s) && |s.consumers| > 0
    ensures Leads(s, actions, s') && SinkInv(s') && SameTopic(s, s') && AtEnd(s')
  {
    assert Leads(s, [], s);
    var before, s1 := Settle(s, [], s);
    var s2 := s1;
    if s1.consumers[0].pc.Stopped? {
      BenignStep(s1, Restart(0));
      StepIsByOne(s1, Restart(0));
      LeadsOneMore(s, before, s1, Restart(0));
      before, s2 := before + [Restart(0)], Step(s1, Restart(0));
    }
    StillFree(s1, s2);
    actions, s' := ReadToEnd(s, before, s2);
  }
}
