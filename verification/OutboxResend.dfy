/**
 * Workers running one at a time, crashing and restarting anywhere: how often an event can be
 * sent. A crash can cost one extra send; nothing else can.
 */
module OutboxResend {
  import opened OutboxRows
  import opened OutboxMachine
  import opened OutboxLease

  ghost predicate Sends(s: State, a: Action, id: nat) {
    a.Send? && Enabled(s, a) && s.workers[a.w].batch[0] == id
  }

  /** Send attempts of the event in a run, those acknowledged, and the crashes in it. */
  ghost function Attempts(s0: State, actions: seq<Action>, id: nat): nat {
    if actions == [] then 0
    else
      var init, a := actions[..|actions| - 1], actions[|actions| - 1];
      Attempts(s0, init, id) + if Sends(Exec(s0, init), a, id) then 1 else 0
  }

  ghost function Acks(s0: State, actions: seq<Action>, id: nat): nat {
    if actions == [] then 0
    else
      var init, a := actions[..|actions| - 1], actions[|actions| - 1];
      Acks(s0, init, id) + if Sends(Exec(s0, init), a, id) && a.reply.Acked? then 1 else 0
  }

  function Crashes(actions: seq<Action>): nat {
    if actions == [] then 0
    else Crashes(actions[..|actions| - 1]) + if actions[|actions| - 1].Crash? then 1 else 0
  }

  ghost predicate OneWorkerInv(s: State) {
    && RowsInv(s) && |s.workers| == 1
    && (Busy(s.workers[0]) ==> forall id :: id in s.workers[0].batch ==> s.rows[id].status == Processing)
    && (forall id :: id in s.rows ==>
          s.rows[id].retryCount <= MAX_RETRIES && (s.rows[id].status != Failed ==> s.rows[id].retryCount < MAX_RETRIES))
  }

  lemma OneWorkerRows(s: State, a: Action)
    requires OneWorkerInv(s)
    ensures forall id :: id in Step(s, a).rows ==>
      Step(s, a).rows[id].retryCount <= MAX_RETRIES
        && (Step(s, a).rows[id].status != Failed ==> Step(s, a).rows[id].retryCount < MAX_RETRIES)
    ensures forall id :: id in s.rows && Terminal(s.rows[id]) ==> Step(s, a).rows[id] == s.rows[id]
  {
    assert WorkerOk(s, s.workers[0]);
  }

  lemma OneWorkerStep(s: State, a: Action)
    requires OneWorkerInv(s)
    ensures OneWorkerInv(Step(s, a))
    ensures forall id :: id in s.rows && Terminal(s.rows[id]) ==> Step(s, a).rows[id] == s.rows[id]
  {
    RowsInvStep(s, a);
    OneWorkerRows(s, a);
    assert WorkerOk(s, s.workers[0]);
  }

  /** 1 while the event has been sent and not marked. */
  function InFlight(w: Worker, id: nat): nat {
    if (w.Sent? || w.Refused?) && w.batch != [] && w.batch[0] == id then 1 else 0
  }

  function AckInFlight(w: Worker, id: nat): nat {
    if w.Sent? && w.batch != [] && w.batch[0] == id then 1 else 0
  }

  /** Each attempt has been counted as a retry, or as the publication, or is in flight, or was lost to a crash. */
  ghost predicate Accounted(s: State, id: nat, attempts: nat, acks: nat, crashes: nat)
    requires |s.workers| == 1
  {
    if id in s.rows then
      var published := if s.rows[id].status == Published then 1 else 0;
      && attempts <= s.rows[id].retryCount + published + InFlight(s.workers[0], id) + crashes
      && acks <= published + AckInFlight(s.workers[0], id) + crashes
    else attempts == acks == 0
  }

  lemma AccountedStep(s: State, a: Action, id: nat, attempts: nat, acks: nat, crashes: nat)
    requires OneWorkerInv(s) && Accounted(s, id, attempts, acks, crashes)
    ensures |Step(s, a).workers| == 1
    ensures Accounted(Step(s, a), id,
                      attempts + (if Sends(s, a, id) then 1 else 0),
                      acks + (if Sends(s, a, id) && a.reply.Acked? then 1 else 0),
                      crashes + if a.Crash? then 1 else 0)
  {
    assert WorkerOk(s, s.workers[0]);
  }

  lemma {:induction false} OneWorkerRun(s0: State, actions: seq<Action>, id: nat)
    requires Initial(s0) && |s0.workers| == 1
    ensures OneWorkerInv(Exec(s0, actions))
    ensures Accounted(Exec(s0, actions), id, Attempts(s0, actions, id), Acks(s0, actions, id), Crashes(actions))
  {
    if actions != [] {
      var init, a := actions[..|actions| - 1], actions[|actions| - 1];
      OneWorkerRun(s0, init, id);
      OneWorkerStep(Exec(s0, init), a);
      AccountedStep(Exec(s0, init), a, id, Attempts(s0, init, id), Acks(s0, init, id), Crashes(init));
    }
  }

  /** At most 5 + crashes sends of one event and 1 + crashes acknowledged ones; at most 5 retries. */
  lemma ResendsAreBounded(s0: State, actions: seq<Action>, id: nat)
    requires Initial(s0) && |s0.workers| == 1
    ensures Attempts(s0, actions, id) <= MAX_RETRIES + Crashes(actions)
    ensures Acks(s0, actions, id) <= 1 + Crashes(actions)
    ensures id in Exec(s0, actions).rows ==> Exec(s0, actions).rows[id].retryCount <= MAX_RETRIES
  {
    OneWorkerRun(s0, actions, id);
    var s := Exec(s0, actions);
    assert WorkerOk(s, s.workers[0]);
  }

  /** And PUBLISHED and FAILED rows never change, however slow the one worker is. */
  lemma {:induction false} OneWorkerTerminalForever(s0: State, actions: seq<Action>, k: nat, id: nat)
    requires Initial(s0) && |s0.workers| == 1 && k <= |actions|
    requires id in Exec(s0, actions[..k]).rows && Terminal(Exec(s0, actions[..k]).rows[id])
    ensures id in Exec(s0, actions).rows && Exec(s0, actions).rows[id] == Exec(s0, actions[..k]).rows[id]
  {
    if k == |actions| {
      assert actions[..k] == actions;
    } else {
      var init := actions[..|actions| - 1];
      assert init[..k] == actions[..k];
      OneWorkerTerminalForever(s0, init, k, id);
      OneWorkerRun(s0, init, id);
      OneWorkerStep(Exec(s0, init), actions[|actions| - 1]);
    }
  }
}
