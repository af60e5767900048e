/**
 * The numbering check over messages of every kind, those that move the numbering included: which fault each
 * message causes, and what becomes of every number.
 */
module FixNumbering {
  import opened Options
  import opened FixWire
  import opened FixClient
  import opened FixClientTheorems

  predicate IsReset(message: Message) { Says(message, MSG_TYPE, "4") }

  predicate IsResettingLogon(message: Message) { Says(message, MSG_TYPE, "A") && Says(message, RESET_SEQ_NUM_FLAG, "Y") }

  /** A fault of this message, numbered `number` when `expected` was due; at most one is recorded. */
  predicate IsFault(message: Message, number: int, expected: int, fault: Fault) {
    match fault
    case EarlyGapFill(n, e) => n == number > e == expected && IsReset(message) && Says(message, GAP_FILL_FLAG, "Y")
    case Skipped(n, e) => n == number > e == expected && !IsReset(message) && !IsResettingLogon(message)
    case WentBack(n, e) =>
      n == number < e == expected && !IsReset(message) && !IsResettingLogon(message) && !Says(message, POSS_DUP_FLAG, "Y")
  }

  /** A message causes a fault exactly when it is one, and then that fault alone; nothing is a fault before a number is expected. */
  lemma {:induction false} FaultExactlyWhen(n: Numbering, message: Message, fault: Fault)
    ensures var after, number := Checked(n, message).faults, NumberIn(message, MSG_SEQ_NUM);
      && (after == n.faults + [fault]
          <==> n.expected.Some? && number.Some? && IsFault(message, number.value, n.expected.value, fault))
      && (after == n.faults || (|after| == |n.faults| + 1 && after[..|n.faults|] == n.faults))
  {
    var after := Checked(n, message).faults;
    if |after| == |n.faults| + 1 {
      assert after == n.faults + [after[|n.faults|]];
    }
    assert n.faults + [fault] != n.faults by {
      assert |n.faults + [fault]| != |n.faults|;
    }
    assert (n.faults + [fault])[|n.faults|] == fault;
  }

  // ---- What becomes of every number ------------------------------------------------------------

  /** The message came in its place or ahead of it, with this number. */
  predicate CameBy(s: Numbering, message: Message, n: int) {
    s.expected.Some? && s.expected.value <= n && NumberIn(message, MSG_SEQ_NUM) == Some(n) && !IsReset(message)
  }

  /** The message moves the numbering past this number without a report: a reset, or a logon that starts it again. */
  predicate PassedBy(s: Numbering, message: Message, n: int) {
    && s.expected.Some? && s.expected.value <= n && NumberIn(message, MSG_SEQ_NUM).Some?
    && if IsReset(message) then NumberIn(message, NEW_SEQ_NO).Some? && n < NumberIn(message, NEW_SEQ_NO).value
       else IsResettingLogon(message) && n < NumberIn(message, MSG_SEQ_NUM).value
  }

  /** The message moves the numbering back. */
  predicate Rewinds(s: Numbering, message: Message) {
    && s.expected.Some? && NumberIn(message, MSG_SEQ_NUM).Some?
    && if IsReset(message) then NumberIn(message, NEW_SEQ_NO).Some? && NumberIn(message, NEW_SEQ_NO).value < s.expected.value
       else IsResettingLogon(message) && NumberIn(message, MSG_SEQ_NUM).value + 1 < s.expected.value
  }

  /** Of one message that does not rewind. */
  lemma {:induction false} MessageAccountsFor(s: Numbering, message: Message, n: int, from: nat)
    requires s.expected.Some? && !Rewinds(s, message) && from <= |s.faults|
    ensures var after := Checked(s, message);
      && after.expected.Some? && s.expected.value <= after.expected.value
      && var missing := ReportedMissing(after.faults, from, n) && !ReportedMissing(s.faults, from, n);
      && (ReportedMissing(s.faults, from, n) ==> ReportedMissing(after.faults, from, n))
      && (s.expected.value <= n < after.expected.value ==> CameBy(s, message, n) || PassedBy(s, message, n) || ReportedMissing(after.faults, from, n))
      && (CameBy(s, message, n) || PassedBy(s, message, n) || missing ==> s.expected.value <= n < after.expected.value)
      && !(CameBy(s, message, n) && PassedBy(s, message, n))
      && !((CameBy(s, message, n) || PassedBy(s, message, n)) && missing)
  {
    var after := Checked(s, message);
    if after.faults != s.faults {
      var fault := after.faults[|s.faults|];
      FaultExactlyWhen(s, message, fault);
      assert after.faults == s.faults + [fault];
      MissingStep(s.faults, fault, from, n);
    }
  }

  /** At some message of the run this holds, of the numbering as it was and of the message. */
  ghost predicate Somewhere(p: (Numbering, Message) -> bool, start: Numbering, messages: seq<Message>) {
    exists k :: 0 <= k < |messages| && p(CheckedAll(start, messages[..k]), messages[k])
  }

  lemma {:induction false} SomewhereStep(p: (Numbering, Message) -> bool, start: Numbering, messages: seq<Message>)
    requires messages != []
    ensures var m := |messages| - 1;
      Somewhere(p, start, messages)
      <==> Somewhere(p, start, messages[..m]) || p(CheckedAll(start, messages[..m]), messages[m])
  {
    var m := |messages| - 1;
    var before := messages[..m];
    forall k | 0 <= k < m ensures before[..k] == messages[..k] && before[k] == messages[k] {
    }
    if k :| 0 <= k < |before| && p(CheckedAll(start, before[..k]), before[k]) {
      assert p(CheckedAll(start, messages[..k]), messages[k]);
    }
    if k :| 0 <= k < |messages| && p(CheckedAll(start, messages[..k]), messages[k]) {
      assert k < m ==> p(CheckedAll(start, before[..k]), before[k]);
    }
  }

  function CameWith(n: int): (Numbering, Message) -> bool { (s, message) => CameBy(s, message, n) }

  function PassedOver(n: int): (Numbering, Message) -> bool { (s, message) => PassedBy(s, message, n) }

  /**
   * Of every run that no message rewinds, whatever its messages: each number between the one first expected
   * and the one now expected came with a message, or is reported missing, or was passed over by a reset or a
   * resetting logon; it is one of these only, and no other number is any.
   */
  lemma {:induction false} EveryNumberAccountedFor(start: Numbering, messages: seq<Message>, n: int)
    requires start.expected.Some? && !Somewhere(Rewinds, start, messages)
    ensures var after := CheckedAll(start, messages);
      && after.expected.Some? && start.expected.value <= after.expected.value && start.faults <= after.faults
      && var came, passed := Somewhere(CameWith(n), start, messages), Somewhere(PassedOver(n), start, messages);
      && var missing := ReportedMissing(after.faults, |start.faults|, n);
      && (start.expected.value <= n < after.expected.value <==> came || passed || missing)
      && !(came && passed) && !(came && missing) && !(passed && missing)
  {
    if messages != [] {
      var m := |messages| - 1;
      SomewhereStep(Rewinds, start, messages);
      EveryNumberAccountedFor(start, messages[..m], n);
      var before := CheckedAll(start, messages[..m]);
      MessageAccountsFor(before, messages[m], n, |start.faults|);
      SomewhereStep(CameWith(n), start, messages);
      SomewhereStep(PassedOver(n), start, messages);
      FaultsGrow(before, messages[m], start.faults);
    }
  }

  lemma {:induction false} FaultsGrow(s: Numbering, message: Message, faults: seq<Fault>)
    requires faults <= s.faults
    ensures faults <= Checked(s, message).faults
  {
  }

  /** The numbering goes back exactly at a message that rewinds it. */
  lemma {:induction false} RewindsExactlyWhen(s: Numbering, message: Message)
    requires s.expected.Some?
    ensures Checked(s, message).expected.Some?
    ensures Rewinds(s, message) <==> Checked(s, message).expected.value < s.expected.value
  {
    ExpectedFallsExactlyWhen(s, message);
  }
}
