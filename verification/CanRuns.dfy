/** What CAN_TransmitStatus tells in a run of CAN_Transmit, CAN_TransmitStatus and CAN_CancelTransmit. */
module CanRuns {
  import opened Bits
  import opened CanFrames
  import opened CanMailboxes
  import opened CanTransmitDriver

  // ----- acknowledged completions

  /** The completion of frame t in mailbox n was acknowledged before the run. */
  ghost predicate ReadBefore(s: State, n: nat, t: nat) {
    n in s.last && s.last[n] == t && n !in s.pending && !Any(s.tsr, Rqcp(n))
  }

  /** A call that begins in state s is a cancel, of whatever mailbox, that reads the completion of frame t in
      mailbox n. */
  ghost predicate ReadByCancel(hw: Bus, s: State, command: Command, n: nat, t: nat) {
    && command.Cancel? && |s.boxes| == MAILBOXES
    && var a := Ticked(hw, s); n in a.last && a.last[n] == t && n !in a.pending
  }

  /** Before call k of a run somebody acknowledged the completion of frame t in mailbox n. */
  ghost predicate Forgotten(hw: Bus, states: seq<State>, commands: seq<Command>, k: nat, n: nat, t: nat)
    requires k <= |commands| < |states|
  {
    || ReadBefore(states[0], n, t)
    || exists j: nat :: j < k && ReadByCancel(hw, states[j], commands[j], n, t)
  }

  lemma ForgottenStep(hw: Bus, states: seq<State>, commands: seq<Command>, k: nat, n: nat, t: nat)
    requires k < |commands| < |states|
    ensures Forgotten(hw, states, commands, k + 1, n, t) <==>
            Forgotten(hw, states, commands, k, n, t) || ReadByCancel(hw, states[k], commands[k], n, t)
    ensures !commands[k].Cancel? ==> !ReadByCancel(hw, states[k], commands[k], n, t)
  {
    hide Ticked, ReadBefore;
  }

  lemma ForgottenSince(hw: Bus, states: seq<State>, commands: seq<Command>, j: nat, k: nat, n: nat, t: nat)
    requires j <= k <= |commands| < |states| && !Forgotten(hw, states, commands, j, n, t)
    ensures Forgotten(hw, states, commands, k, n, t) <==>
            exists i :: j <= i < k && ReadByCancel(hw, states[i], commands[i], n, t)
  {
    hide ReadByCancel, ReadBefore;
  }

  // ----- one call

  /** Between two calls: the completion of a pending frame was not forgotten, and RQCP of an empty mailbox tells
      whether that of its last frame was. */
  ghost predicate Remembers(s: State, n: nat, forgotten: bool) {
    if n in s.pending then !forgotten else n in s.last ==> (Any(s.tsr, Rqcp(n)) <==> !forgotten)
  }

  lemma AloneRemembers(s: State, q: State, n: nat, forgotten: bool)
    requires |s.boxes| == |q.boxes| == MAILBOXES && n < MAILBOXES && LeftAlone(s, q, n)
    requires Remembers(s, n, forgotten)
    ensures Remembers(q, n, forgotten)
  {
    hide Any, Clear, Rqcp, Txok, Tme, Abrq;
  }

  lemma TimeLeaves(hw: Bus, s: State, n: nat)
    requires Inv(s) && n < MAILBOXES
    ensures var q := Ticked(hw, s);
            && Inv(q) && LeftAlone(s, q, n) && q.last == s.last && q.accepted == s.accepted
            && (n in q.pending ==> n in s.pending)
  {
    hide Ticked, LeftAlone, Inv;
    InvHasBoxes(s);
    TickedInv(hw, s);
    TickedAlone(hw, s, n);
  }

  // A cancel, of any mailbox m: it forgets the completions that it read, and no others
  lemma CancelRemembers(hw: Bus, s: State, m: nat, q: State, n: nat, forgotten: bool)
    requires Inv(s) && m < MAILBOXES && n < MAILBOXES && CancelEffect(hw, s, m, q)
    requires n in s.last && Remembers(s, n, forgotten)
    ensures q.accepted == s.accepted && q.last == s.last
    ensures Remembers(q, n, forgotten || ReadByCancel(hw, s, Cancel(m), n, s.last[n]))
  {
    hide Any, Set, Rqcp, Txok, Tme, Abrq, TsrWritten, Ticked, Inv, LeftAlone, Disjoint;
    InvHasBoxes(s);
    var a := Ticked(hw, s);
    var b := Ticked(hw, a);
    TimeLeaves(hw, s, n);
    TimeLeaves(hw, a, n);
    AloneRemembers(s, a, n, forgotten);
    AloneRemembers(a, b, n, forgotten);
    FlagsOf(a, n);
    if n !in a.pending {
      TickedFlags(hw, a, n);
    }
    OwnMailbox(m, n);
    Untouched(a.tsr, Abrq(m), Rqcp(n));
    TsrWrittenFlags(b.tsr, Set(a.tsr, Abrq(m)), n);
  }

  // A call takes a message into mailbox n
  predicate Refills(command: Command, outcome: Outcome, n: nat) {
    command.Send? && outcome == Taken(n)
  }

  lemma StepRemembers(hw: Bus, s: State, command: Command, outcome: Outcome, q: State, n: nat, forgotten: bool)
    requires Inv(s) && Inv(q) && n < MAILBOXES && Allowed(command) && |s.boxes| == MAILBOXES
    requires StepOf(hw, s, command, outcome, q) && !Refills(command, outcome, n)
    requires n in s.last && Remembers(s, n, forgotten)
    ensures n in q.last && q.last[n] == s.last[n]
    ensures Remembers(q, n, forgotten || ReadByCancel(hw, s, command, n, s.last[n]))
  {
    hide Remembers, Ticked, Inv, CancelEffect, Found, Keep, FrameOf, StatusOf, Later;
    match command {
      case Send(t) => AloneRemembers(s, q, n, forgotten);
      case Query(m) =>
        TimeLeaves(hw, s, n);
        AloneRemembers(s, q, n, forgotten);
      case Cancel(m) => CancelRemembers(hw, s, m, q, n, forgotten);
    }
  }

  // What a call does to the frames accepted so far
  lemma StepAccepts(hw: Bus, s: State, command: Command, outcome: Outcome, q: State)
    requires Inv(s) && Allowed(command) && |s.boxes| == MAILBOXES && StepOf(hw, s, command, outcome, q)
    ensures s.accepted <= q.accepted
    ensures forall n: nat :: n < MAILBOXES && Refills(command, outcome, n) ==>
              && n in q.pending && n in q.last && q.last[n] == |s.accepted|
              && q.accepted == s.accepted + [FrameOf(command.t)]
    ensures forall n: nat :: n in q.last && !Refills(command, outcome, n) && n < MAILBOXES ==>
              n in s.last && q.last[n] == s.last[n]
  {
    hide Ticked, Inv, Found, Keep, FrameOf, StatusOf, Any, Clear, Set, Rqcp, Txok, Tme, TsrWritten, Abrq;
    match command {
      case Send(t) =>
        forall n: nat | n < MAILBOXES && !Refills(command, outcome, n)
          ensures LeftAlone(s, q, n)
        {
        }
      case Query(m) => TimeLeaves(hw, s, 0);
      case Cancel(m) =>
        TimeLeaves(hw, s, 0);
        TimeLeaves(hw, Ticked(hw, s), 0);
    }
  }

  // ----- runs

  lemma {:induction false} AcceptedGrows(hw: Bus, states: seq<State>, commands: seq<Command>, outcomes: seq<Outcome>,
                                         i: nat, j: nat)
    requires Steps(hw, states, commands, outcomes) && i <= j < |states|
    requires forall k :: 0 <= k < |commands| ==> Allowed(commands[k])
    ensures states[i].accepted <= states[j].accepted
  {
    hide StepOf, Inv, Allowed;
    if i < j {
      AcceptedGrows(hw, states, commands, outcomes, i, j - 1);
      InvHasBoxes(states[j - 1]);
      StepAccepts(hw, states[j - 1], commands[j - 1], outcomes[j - 1], states[j]);
    }
  }

  // A frame that was not accepted yet cannot have been forgotten
  lemma NewIsNotForgotten(hw: Bus, states: seq<State>, commands: seq<Command>, outcomes: seq<Outcome>, k: nat, n: nat,
                          t: nat)
    requires Steps(hw, states, commands, outcomes) && k <= |commands| && n < MAILBOXES && t >= |states[k].accepted|
    requires forall k :: 0 <= k < |commands| ==> Allowed(commands[k])
    ensures !Forgotten(hw, states, commands, k, n, t)
  {
    hide StepOf, Inv, Allowed, Ticked, Any;
    AcceptedGrows(hw, states, commands, outcomes, 0, k);
    LastsIn(states[0], n);
    forall j: nat | j < k
      ensures !ReadByCancel(hw, states[j], commands[j], n, t)
    {
      AcceptedGrows(hw, states, commands, outcomes, j, k);
      InvHasBoxes(states[j]);
      TimeLeaves(hw, states[j], n);
      LastsIn(states[j], n);
    }
  }

  lemma LastsIn(s: State, n: nat)
    requires Inv(s)
    ensures n in s.last ==> s.last[n] < |s.accepted|
  {
    hide Ledger, Flags, Carried;
  }

  lemma {:induction false} RunRemembers(hw: Bus, states: seq<State>, commands: seq<Command>, outcomes: seq<Outcome>,
                                        k: nat, n: nat)
    requires Steps(hw, states, commands, outcomes) && k <= |commands| && n < MAILBOXES && n in states[k].last
    requires forall k :: 0 <= k < |commands| ==> Allowed(commands[k])
    ensures Remembers(states[k], n, Forgotten(hw, states, commands, k, n, states[k].last[n]))
  {
    hide StepOf, Inv, Allowed, ReadByCancel;
    var t := states[k].last[n];
    if k == 0 {
      StartRemembers(states[0], n);
    } else {
      var i := k - 1;
      InvHasBoxes(states[i]);
      ForgottenStep(hw, states, commands, i, n, t);
      StepAccepts(hw, states[i], commands[i], outcomes[i], states[k]);
      if Refills(commands[i], outcomes[i], n) {
        NewIsNotForgotten(hw, states, commands, outcomes, i, n, t);
      } else {
        RunRemembers(hw, states, commands, outcomes, i, n);
        StepRemembers(hw, states[i], commands[i], outcomes[i], states[k], n,
                      Forgotten(hw, states, commands, i, n, t));
      }
    }
  }

  lemma StartRemembers(s: State, n: nat)
    requires Inv(s) && n < MAILBOXES && n in s.last
    ensures Remembers(s, n, ReadBefore(s, n, s.last[n]))
  {
    hide Any, Rqcp;
  }

  // The answer of one call, by the ledger and RQCP
  lemma QueryAnswers(hw: Bus, s: State, command: Command, outcome: Outcome, q: State)
    requires Inv(s) && Inv(q) && command.Query? && |s.boxes| == MAILBOXES && StepOf(hw, s, command, outcome, q)
    ensures var n := command.m;
            && n < MAILBOXES && outcome.Answer?
            && (n in q.last ==> n in s.last && q.last[n] == s.last[n])
            && (outcome.status == Pending <==> n in q.pending)
            && (outcome.status == Ok <==> n in q.last && q.last[n] in q.sent && Any(q.tsr, Rqcp(n)))
  {
    hide Any, Rqcp, Txok, Tme, StatusOf, Inv, Ticked;
    var n := command.m;
    TimeLeaves(hw, s, n);
    StatusMeans(q, n);
    StatusReads(q.tsr, n);
  }

  /** What CAN_TransmitStatus answers at any place of any run: Pending while the last frame of the mailbox is
      pending; Ok if that frame was sent and no cancel, of whatever mailbox, has read its completion before; and
      Failed otherwise. */
  lemma AnswerInRun(hw: Bus, states: seq<State>, commands: seq<Command>, outcomes: seq<Outcome>, i: nat)
    requires Steps(hw, states, commands, outcomes) && i < |commands| && commands[i].Query?
    requires forall k :: 0 <= k < |commands| ==> Allowed(commands[k])
    ensures var n, q := commands[i].m, states[i + 1];
            outcomes[i] == Answer(
              if n in q.pending then Pending
              else if n in q.last && q.last[n] in q.sent && !Forgotten(hw, states, commands, i, n, q.last[n]) then Ok
              else Failed)
  {
    hide StepOf, Inv, Allowed, ReadByCancel;
    var n, q := commands[i].m, states[i + 1];
    assert Allowed(commands[i]);
    InvHasBoxes(states[i]);
    QueryAnswers(hw, states[i], commands[i], outcomes[i], q);
    if n in q.last {
      ForgottenStep(hw, states, commands, i, n, q.last[n]);
      RunRemembers(hw, states, commands, outcomes, i, n);
      StepRemembers(hw, states[i], commands[i], outcomes[i], q, n,
                    Forgotten(hw, states, commands, i, n, q.last[n]));
    }
  }

  // Calls i .. k - 1 take no message into mailbox n
  predicate NotRefilled(commands: seq<Command>, outcomes: seq<Outcome>, n: nat, i: nat, k: nat)
    requires k <= |commands| && k <= |outcomes|
  {
    forall j :: i <= j < k ==> !Refills(commands[j], outcomes[j], n)
  }

  lemma {:induction false} LastStays(hw: Bus, states: seq<State>, commands: seq<Command>, outcomes: seq<Outcome>,
                                     i: nat, k: nat, n: nat)
    requires Steps(hw, states, commands, outcomes) && i <= k <= |commands| && n < MAILBOXES && n in states[i].last
    requires forall k :: 0 <= k < |commands| ==> Allowed(commands[k])
    requires NotRefilled(commands, outcomes, n, i, k)
    ensures n in states[k].last && states[k].last[n] == states[i].last[n]
  {
    hide StepOf, Inv, Allowed, Remembers;
    if i < k {
      LastStays(hw, states, commands, outcomes, i, k - 1, n);
      InvHasBoxes(states[k - 1]);
      assert !Refills(commands[k - 1], outcomes[k - 1], n);
      RunRemembers(hw, states, commands, outcomes, k - 1, n);
      StepRemembers(hw, states[k - 1], commands[k - 1], outcomes[k - 1], states[k], n,
                    Forgotten(hw, states, commands, k - 1, n, states[k - 1].last[n]));
    }
  }

  /** The same for the message of a call j that was taken into the mailbox, with no other one after it: frame
      number t of the run carries the message, and Ok is answered exactly if it was sent and no cancel between
      the two calls has read that. */
  lemma AnswerForMessage(hw: Bus, states: seq<State>, commands: seq<Command>, outcomes: seq<Outcome>, j: nat, i: nat)
    requires Steps(hw, states, commands, outcomes) && j < i < |commands| && commands[i].Query?
    requires forall k :: 0 <= k < |commands| ==> Allowed(commands[k])
    requires Refills(commands[j], outcomes[j], commands[i].m)
    requires NotRefilled(commands, outcomes, commands[i].m, j + 1, i)
    ensures var n, t, q := commands[i].m, |states[j].accepted|, states[i + 1];
            && t < |q.accepted| && q.accepted[t] == FrameOf(commands[j].t)
            && outcomes[i] == Answer(
                 if n in q.pending then Pending
                 else if t in q.sent && forall k :: j < k < i ==>
                   !ReadByCancel(hw, states[k], commands[k], n, t) then Ok
                 else Failed)
  {
    hide StepOf, Inv, Allowed, ReadByCancel, FrameOf;
    var n, t, q := commands[i].m, |states[j].accepted|, states[i + 1];
    assert Allowed(commands[i]);
    InvHasBoxes(states[j]);
    InvHasBoxes(states[i]);
    QueryAnswers(hw, states[i], commands[i], outcomes[i], q);
    StepAccepts(hw, states[j], commands[j], outcomes[j], states[j + 1]);
    LastStays(hw, states, commands, outcomes, j + 1, i + 1, n);
    AcceptedGrows(hw, states, commands, outcomes, j + 1, i + 1);
    AnswerInRun(hw, states, commands, outcomes, i);
    NewIsNotForgotten(hw, states, commands, outcomes, j, n, t);
    ForgottenStep(hw, states, commands, j, n, t);
    ForgottenSince(hw, states, commands, j + 1, i, n, t);
  }
}
