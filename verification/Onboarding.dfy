/** The onboarding state machine and the verifier that recounts its event stream. */
module Onboarding {

  const STEPS: seq<string> := ["WELCOME", "LEARN_CONTROLS", "COMPLETE_TASK", "CLAIM_REWARD", "CHOOSE_PATH", "FINISH"]

  const EXPECTED: seq<string> :=
    ["START", "READ_INSTRUCTIONS", "COMPLETE_FIRST_GOAL", "CLAIM_REWARD", "CHOOSE_PATH", "FINISH_ONBOARDING"]

  datatype Outcome = Invalid | AlreadyComplete | HelpProvided | Valid

  datatype Record = Record(
    stepIndex: nat, invalidActions: nat, helpRequests: nat, hintsRequested: nat, dialogueLoops: nat,
    completed: bool, hadHelpThisStep: bool)

  const FRESH := Record(0, 0, 0, 0, 0, false, false)

  // The keywords the verifier looks for in an event's type, or the payload flags that stand for them.
  datatype Mark =
    | RulesHelp | DialogueLoop | Hint | Death | Inaccessible | Contradiction | Clue | Abandoned | Comprehended

  // What the verifier reads of an event.
  datatype Event = Event(outcome: Outcome, action: string, step: string, reason: string, marks: set<Mark>)

  function StepAt(stepIndex: nat): nat {
    if stepIndex < |STEPS| - 1 then stepIndex else |STEPS| - 1
  }

  // One action: the new record and the event the command leaves.
  function Act(r: Record, action: string): (Record, Event) {
    var at := StepAt(r.stepIndex);
    var (next, outcome) :=
      if r.completed then (r, AlreadyComplete)
      else if action == "ASK_HELP" then
        (r.(helpRequests := r.helpRequests + 1,
            hintsRequested := r.hintsRequested + if STEPS[at] == "COMPLETE_TASK" then 1 else 0,
            dialogueLoops := r.dialogueLoops + if r.hadHelpThisStep then 1 else 0,
            hadHelpThisStep := true),
         HelpProvided)
      else if action == EXPECTED[at] then
        (r.(stepIndex := r.stepIndex + 1, hadHelpThisStep := false, completed := r.stepIndex + 1 >= |STEPS|), Valid)
      else (r.(invalidActions := r.invalidActions + 1), Invalid);
    (next, Event(outcome, action, STEPS[at], "", {}))
  }

  function RecordAfter(actions: seq<string>): Record {
    if actions == [] then FRESH else Act(RecordAfter(actions[..|actions| - 1]), actions[|actions| - 1]).0
  }

  function EventsOf(actions: seq<string>): seq<Event> {
    if actions == [] then []
    else EventsOf(actions[..|actions| - 1]) + [Act(RecordAfter(actions[..|actions| - 1]), actions[|actions| - 1]).1]
  }

  /* ---- The recount ---- */

  datatype Memo = NoMemo | Memo(text: string)

  // Counters the verifier keeps, and what it remembers from earlier events.
  datatype Tally = Tally(
    firstValid: int, reasons: multiset<string>, repeated: nat, help: nat, loops: nat, seen: Seen,
    priorInvalid: Memo, priorHelp: Memo)

  // The events carrying each of the plainly counted marks.
  datatype Seen = Seen(
    hints: nat, deaths: nat, inaccessible: nat, contradictions: nat, clues: nat, abandoned: nat, comprehended: nat)

  // Letter case is an arbitrary function here, as far as it leaves the help action alone.
  type Upper = string -> string

  // The reason an event gives, or one made of the action.
  function ReasonOf(upper: Upper, e: Event): string {
    if e.reason != "" then e.reason
    else "unexpected_action:" + if upper(e.action) == "" then "unknown" else upper(e.action)
  }

  function One(marked: bool): nat {
    if marked then 1 else 0
  }

  function Marked(c: Seen, marks: set<Mark>): Seen {
    Seen(c.hints + One(Hint in marks), c.deaths + One(Death in marks), c.inaccessible + One(Inaccessible in marks),
         c.contradictions + One(Contradiction in marks), c.clues + One(Clue in marks),
         c.abandoned + One(Abandoned in marks), c.comprehended + One(Comprehended in marks))
  }

  function Counted(upper: Upper, t: Tally, e: Event, index: int): Tally {
    var action := upper(e.action);
    Tally(
      if e.outcome == Valid && t.firstValid < 0 then index else t.firstValid,
      if e.outcome == Invalid then t.reasons + multiset{ReasonOf(upper, e)} else t.reasons,
      t.repeated + One(e.outcome == Invalid && t.priorInvalid == Memo(action)),
      t.help + One(action == "ASK_HELP" || RulesHelp in e.marks),
      t.loops + One(DialogueLoop in e.marks
                    || (e.outcome == HelpProvided && e.step != "" && t.priorHelp == Memo(e.step))),
      Marked(t.seen, e.marks),
      if e.outcome == Invalid then Memo(action) else NoMemo,
      if DialogueLoop in e.marks then t.priorHelp
      else if e.outcome == HelpProvided then Memo(e.step)
      else if e.outcome == Valid then NoMemo
      else t.priorHelp)
  }

  const UNSEEN := Seen(0, 0, 0, 0, 0, 0, 0)

  const NOTHING := Tally(-1, multiset{}, 0, 0, 0, UNSEEN, NoMemo, NoMemo)

  function Recount(upper: Upper, events: seq<Event>): Tally {
    if events == [] then NOTHING
    else Counted(upper, Recount(upper, events[..|events| - 1]), events[|events| - 1], |events|)
  }

  method CountMarks(c: Seen, marks: set<Mark>) returns (d: Seen)
    ensures d == Marked(c, marks)
  {
    d := c;
    if Hint in marks { d := d.(hints := d.hints + 1); }
    if Death in marks { d := d.(deaths := d.deaths + 1); }
    if Inaccessible in marks { d := d.(inaccessible := d.inaccessible + 1); }
    if Contradiction in marks { d := d.(contradictions := d.contradictions + 1); }
    if Clue in marks { d := d.(clues := d.clues + 1); }
    if Abandoned in marks { d := d.(abandoned := d.abandoned + 1); }
    if Comprehended in marks { d := d.(comprehended := d.comprehended + 1); }
  }

  // One turn of the verifier's loop.
  method Count(upper: Upper, t: Tally, e: Event, index: int) returns (u: Tally)
    ensures u == Counted(upper, t, e, index)
  {
    u := t;
    var action := upper(e.action);
    if e.outcome == Valid && u.firstValid < 0 { u := u.(firstValid := index); }
    if e.outcome == Invalid {
      u := u.(reasons := u.reasons + multiset{ReasonOf(upper, e)});
      if u.priorInvalid == Memo(action) { u := u.(repeated := u.repeated + 1); }
      u := u.(priorInvalid := Memo(action));
    } else {
      u := u.(priorInvalid := NoMemo);
    }
    if action == "ASK_HELP" || RulesHelp in e.marks { u := u.(help := u.help + 1); }
    if DialogueLoop in e.marks {
      u := u.(loops := u.loops + 1);
    } else if e.outcome == HelpProvided {
      if e.step != "" && u.priorHelp == Memo(e.step) { u := u.(loops := u.loops + 1); }
      u := u.(priorHelp := Memo(e.step));
    } else if e.outcome == Valid {
      u := u.(priorHelp := NoMemo);
    }
    var seen := CountMarks(u.seen, e.marks);
    u := u.(seen := seen);
  }

  method Verify(upper: Upper, events: seq<Event>) returns (t: Tally)
    ensures t == Recount(upper, events)
  {
    t := NOTHING;
    for i := 0 to |events|
      invariant t == Recount(upper, events[..i])
    {
      assert events[..i + 1][..i] == events[..i];
      t := Count(upper, t, events[i], i + 1);
    }
    assert events[..|events|] == events;
  }

  /* ---- Both accounts of the same actions ---- */

  function CountOutcome(events: seq<Event>, outcome: Outcome): nat {
    if events == [] then 0
    else CountOutcome(events[..|events| - 1], outcome) + if events[|events| - 1].outcome == outcome then 1 else 0
  }

  lemma EventsFront(actions: seq<string>)
    requires actions != []
    ensures var front := actions[..|actions| - 1];
            var events := EventsOf(actions);
            |events| == |actions| && events[..|events| - 1] == EventsOf(front)
            && events[|events| - 1] == Act(RecordAfter(front), actions[|actions| - 1]).1
    decreases |actions|
  {
    var front := actions[..|actions| - 1];
    if front != [] { EventsFront(front); }
    assert EventsOf(actions)[..|EventsOf(front)|] == EventsOf(front);
  }

  // What the record says, in terms of the events alone.
  ghost predicate Tells(r: Record, events: seq<Event>) {
    && r.stepIndex == CountOutcome(events, Valid) && r.stepIndex <= |STEPS|
    && (r.completed <==> r.stepIndex == |STEPS|)
    && r.invalidActions == CountOutcome(events, Invalid)
    && r.helpRequests == CountOutcome(events, HelpProvided)
  }

  /**
   * The record counts its events: valid ones are the step reached, the entity is done exactly at the sixth, and the
   * other two counters are the invalid and the helped ones.
   */
  lemma {:induction false} RecordTells(actions: seq<string>)
    ensures Tells(RecordAfter(actions), EventsOf(actions))
    decreases |actions|
  {
    if actions != [] {
      RecordTells(actions[..|actions| - 1]);
      EventsFront(actions);
    }
  }

  function ValidActions(events: seq<Event>): seq<string> {
    if events == [] then []
    else
      ValidActions(events[..|events| - 1])
      + if events[|events| - 1].outcome == Valid then [events[|events| - 1].action] else []
  }

  /** The valid actions are the expected ones, each once and in order, as far as the entity has come. */
  lemma {:induction false} ValidInOrder(actions: seq<string>)
    ensures RecordAfter(actions).stepIndex <= |EXPECTED|
    ensures ValidActions(EventsOf(actions)) == EXPECTED[..RecordAfter(actions).stepIndex]
    decreases |actions|
  {
    RecordTells(actions);
    if actions != [] {
      var front, last := actions[..|actions| - 1], actions[|actions| - 1];
      ValidInOrder(front);
      RecordTells(front);
      EventsFront(actions);
      var n := RecordAfter(front).stepIndex;
      if Act(RecordAfter(front), last).1.outcome == Valid {
        assert last == EXPECTED[n];
        assert EXPECTED[..n + 1] == EXPECTED[..n] + [EXPECTED[n]];
      }
    }
  }

  // The help remembered by the verifier is the help given at the present step.
  ghost predicate SameMemory(r: Record, t: Tally) {
    t.priorHelp == if r.hadHelpThisStep && !r.completed then Memo(STEPS[StepAt(r.stepIndex)]) else NoMemo
  }

  lemma StepNamesApart(at: nat)
    requires at < |STEPS|
    ensures STEPS[at] != ""
  {
    assert STEPS[0] == "WELCOME" && STEPS[1] == "LEARN_CONTROLS" && STEPS[2] == "COMPLETE_TASK"
           && STEPS[3] == "CLAIM_REWARD"
           && STEPS[4] == "CHOOSE_PATH" && STEPS[5] == "FINISH";
  }

  lemma ActAgrees(upper: Upper, r: Record, t: Tally, action: string, index: int)
    requires SameMemory(r, t) && (r.completed ==> !r.hadHelpThisStep)
    requires |t.reasons| == r.invalidActions && t.loops == r.dialogueLoops && t.seen == UNSEEN
    ensures var (next, e) := Act(r, action);
            var u := Counted(upper, t, e, index);
            && SameMemory(next, u) && (next.completed ==> !next.hadHelpThisStep)
            && |u.reasons| == next.invalidActions && u.loops == next.dialogueLoops && u.seen == UNSEEN
  {
    StepNamesApart(StepAt(r.stepIndex));
  }

  /**
   * For every sequence of actions on one entity, recounting the events gives the record's invalid actions and
   * dialogue loops.
   */
  lemma {:induction false} RecountAgrees(upper: Upper, actions: seq<string>)
    ensures var r := RecordAfter(actions);
            var t := Recount(upper, EventsOf(actions));
            && |t.reasons| == r.invalidActions && t.loops == r.dialogueLoops && t.seen == UNSEEN
            && SameMemory(r, t) && (r.completed ==> !r.hadHelpThisStep)
    decreases |actions|
  {
    if actions != [] {
      var front := actions[..|actions| - 1];
      RecountAgrees(upper, front);
      EventsFront(actions);
      ActAgrees(upper, RecordAfter(front), Recount(upper, EventsOf(front)), actions[|actions| - 1], |actions|);
    }
  }

  // The counters a final state may carry take precedence over the recount.
  function Reported(final: map<string, int>, name: string, recount: int): int {
    if name in final then final[name] else recount
  }

  /** So for a state taken from the record, with or without these counters, the verifier reports the record's. */
  lemma ReportedAgrees(upper: Upper, actions: seq<string>, final: map<string, int>)
    requires "invalid_actions" in final ==> final["invalid_actions"] == RecordAfter(actions).invalidActions
    requires "dialogue_loops" in final ==> final["dialogue_loops"] == RecordAfter(actions).dialogueLoops
    ensures var t := Recount(upper, EventsOf(actions));
            && Reported(final, "invalid_actions", |t.reasons|) == RecordAfter(actions).invalidActions
            && Reported(final, "dialogue_loops", t.loops) == RecordAfter(actions).dialogueLoops
  {
    RecountAgrees(upper, actions);
  }

  /* ---- Help and hints, in terms of the actions ---- */

  // Help asked for by the exact action, before completion.
  predicate InTime(actions: seq<string>, i: nat)
    requires i < |actions|
  {
    actions[i] == "ASK_HELP" && !RecordAfter(actions[..i]).completed
  }

  // Something that reads as asking for help in upper case, but is not answered.
  predicate Unanswered(upper: Upper, actions: seq<string>, i: nat)
    requires i < |actions|
  {
    upper(actions[i]) == "ASK_HELP" && !InTime(actions, i)
  }

  function CountUnanswered(upper: Upper, actions: seq<string>): nat {
    if actions == [] then 0
    else CountUnanswered(upper, actions[..|actions| - 1]) + One(Unanswered(upper, actions, |actions| - 1))
  }

  lemma {:induction false} HelpGap(upper: Upper, actions: seq<string>)
    requires upper("ASK_HELP") == "ASK_HELP"
    ensures Recount(upper, EventsOf(actions)).help ==
            RecordAfter(actions).helpRequests + CountUnanswered(upper, actions)
    decreases |actions|
  {
    if actions != [] {
      HelpGap(upper, actions[..|actions| - 1]);
      EventsFront(actions);
    }
  }

  lemma {:induction false} NoneUnanswered(upper: Upper, actions: seq<string>)
    ensures CountUnanswered(upper, actions) == 0 <==> forall i :: 0 <= i < |actions| ==> !Unanswered(upper, actions, i)
    decreases |actions|
  {
    if actions != [] {
      var front := actions[..|actions| - 1];
      NoneUnanswered(upper, front);
      forall i | 0 <= i < |front| ensures Unanswered(upper, front, i) <==> Unanswered(upper, actions, i) {
        assert front[..i] == actions[..i];
      }
    }
  }

  /**
   * The recount exceeds the recorded help requests by the number of unanswered ones; the two agree if and only if
   * whatever reads ASK_HELP in upper case is exactly that action, and comes before completion.
   */
  lemma HelpRecountExact(upper: Upper, actions: seq<string>)
    requires upper("ASK_HELP") == "ASK_HELP"
    ensures Recount(upper, EventsOf(actions)).help ==
            RecordAfter(actions).helpRequests + CountUnanswered(upper, actions)
    ensures Recount(upper, EventsOf(actions)).help == RecordAfter(actions).helpRequests
            <==> forall i :: 0 <= i < |actions| && upper(actions[i]) == "ASK_HELP" ==>
                   actions[i] == "ASK_HELP" && !RecordAfter(actions[..i]).completed
  {
    HelpGap(upper, actions);
    NoneUnanswered(upper, actions);
    forall i | 0 <= i < |actions|
      ensures Unanswered(upper, actions, i) <==>
              upper(actions[i]) == "ASK_HELP" && !(actions[i] == "ASK_HELP" && !RecordAfter(actions[..i]).completed)
    {}
  }

  /** A lower-case request, and one after the sixth step, are recounted but not recorded. */
  lemma HelpRecountDiffers(upper: Upper)
    requires upper("ASK_HELP") == "ASK_HELP" && upper("ask_help") == "ASK_HELP"
    ensures Recount(upper, EventsOf(["ask_help"])).help == 1 && RecordAfter(["ask_help"]).helpRequests == 0
    ensures RecordAfter(EXPECTED).completed
    ensures var late := EXPECTED + ["ASK_HELP"];
            Recount(upper, EventsOf(late)).help > RecordAfter(late).helpRequests
  {
    var lower := ["ask_help"];
    assert lower[..0] == [] && RecordAfter(lower[..0]) == FRESH;
    HelpGap(upper, lower);
    assert Unanswered(upper, lower, 0);
    assert CountUnanswered(upper, lower) == 1;
    ExpectedCompletes(6);
    assert EXPECTED[..6] == EXPECTED;
    var late := EXPECTED + ["ASK_HELP"];
    assert late[..6] == EXPECTED;
    assert Unanswered(upper, late, 6);
    HelpGap(upper, late);
  }

  lemma {:induction false} ExpectedCompletes(n: nat)
    requires n <= 6
    ensures RecordAfter(EXPECTED[..n]) == Record(n, 0, 0, 0, 0, n == 6, false)
  {
    if n > 0 {
      ExpectedCompletes(n - 1);
      assert EXPECTED[..n][..n - 1] == EXPECTED[..n - 1];
    }
  }

  // Help asked for during the third step.
  predicate AsksHint(actions: seq<string>, i: nat)
    requires i < |actions|
  {
    actions[i] == "ASK_HELP" && RecordAfter(actions[..i]).stepIndex == 2
  }

  lemma {:induction false} HintsRecorded(actions: seq<string>)
    ensures RecordAfter(actions).hintsRequested == 0 <==> forall i :: 0 <= i < |actions| ==> !AsksHint(actions, i)
    decreases |actions|
  {
    if actions != [] {
      var front, last := actions[..|actions| - 1], |actions| - 1;
      HintsRecorded(front);
      RecordTells(front);
      ActHint(RecordAfter(front), actions[last]);
      assert RecordAfter(actions) == Act(RecordAfter(front), actions[last]).0;
      assert AsksHint(actions, last) <==> actions[last] == "ASK_HELP" && RecordAfter(front).stepIndex == 2;
      forall i | 0 <= i < |front| ensures AsksHint(front, i) <==> AsksHint(actions, i) {
        assert front[..i] == actions[..i];
      }
      assert (forall i :: 0 <= i < |actions| ==> !AsksHint(actions, i)) <==>
             (forall i :: 0 <= i < |front| ==> !AsksHint(front, i)) && !AsksHint(actions, last);
    }
  }

  lemma ActHint(r: Record, action: string)
    requires r.stepIndex <= |STEPS| && (r.completed <==> r.stepIndex == |STEPS|)
    ensures Act(r, action).0.hintsRequested == r.hintsRequested + One(action == "ASK_HELP" && r.stepIndex == 2)
  {
    ThirdStep(StepAt(r.stepIndex));
  }

  lemma ThirdStep(at: nat)
    requires at < |STEPS|
    ensures STEPS[at] == "COMPLETE_TASK" <==> at == 2
  {
    assert |STEPS[0]| == 7 && |STEPS[1]| == 14 && |STEPS[2]| == 13 && |STEPS[3]| == 12 && |STEPS[4]| == 11
           && |STEPS[5]| == 6;
  }

  /**
   * Onboarding events carry no hint marker, so the hint counts agree if and only if no help was asked for in the third
   * step.
   */
  lemma HintRecountExact(upper: Upper, actions: seq<string>)
    ensures Recount(upper, EventsOf(actions)).seen.hints == RecordAfter(actions).hintsRequested
            <==> forall i :: 0 <= i < |actions| && actions[i] == "ASK_HELP" ==> RecordAfter(actions[..i]).stepIndex != 2
  {
    RecountAgrees(upper, actions);
    HintsRecorded(actions);
    forall i | 0 <= i < |actions|
      ensures AsksHint(actions, i) <==> actions[i] == "ASK_HELP" && RecordAfter(actions[..i]).stepIndex == 2
    {}
  }

  // The first valid event, counted from one.
  ghost predicate FirstValidAt(events: seq<Event>, index: int) {
    && 1 <= index <= |events| && events[index - 1].outcome == Valid
    && forall i :: 0 <= i < index - 1 ==> events[i].outcome != Valid
  }

  /** The time to the first valid action is the position of the first valid event, or minus one without any. */
  lemma {:induction false} FirstValidExact(upper: Upper, events: seq<Event>)
    ensures var first := Recount(upper, events).firstValid;
            if exists i :: 0 <= i < |events| && events[i].outcome == Valid
            then FirstValidAt(events, first) else first == -1
  {
    if events != [] {
      var front, last := events[..|events| - 1], events[|events| - 1];
      FirstValidExact(upper, front);
      forall i | 0 <= i < |front| ensures front[i] == events[i] {}
    }
  }

  /* ---- What the other counters mean ---- */

  predicate MarkedAt(events: seq<Event>, m: Mark, i: nat) {
    i < |events| && m in events[i].marks
  }

  // An invalid event right after one with the same action, in upper case.
  predicate RepeatedAt(upper: Upper, events: seq<Event>, i: nat) {
    && 0 < i < |events| && events[i - 1].outcome == Invalid && events[i].outcome == Invalid
    && upper(events[i - 1].action) == upper(events[i].action)
  }

  lemma OneMore(before: set<nat>, after: set<nat>, n: nat, joins: bool)
    requires n !in before && after == if joins then before + {n} else before
    ensures |after| == |before| + One(joins)
  {
  }

  function MarkCount(c: Seen, m: Mark): nat
    requires m != RulesHelp && m != DialogueLoop
  {
    match m
    case Hint => c.hints
    case Death => c.deaths
    case Inaccessible => c.inaccessible
    case Contradiction => c.contradictions
    case Clue => c.clues
    case Abandoned => c.abandoned
    case Comprehended => c.comprehended
  }

  ghost function MarkedPlaces(events: seq<Event>, m: Mark): set<nat> {
    set i: nat | i < |events| && MarkedAt(events, m, i)
  }

  ghost function RepeatedPlaces(upper: Upper, events: seq<Event>): set<nat> {
    set i: nat | i < |events| && RepeatedAt(upper, events, i)
  }

  lemma MarkedFront(events: seq<Event>, e: Event, m: Mark, i: nat)
    ensures MarkedAt(events + [e], m, i) <==> if i == |events| then m in e.marks else MarkedAt(events, m, i)
  {
  }

  lemma MarkedMore(events: seq<Event>, e: Event, m: Mark)
    ensures |MarkedPlaces(events + [e], m)| == |MarkedPlaces(events, m)| + One(m in e.marks)
  {
    var n := |events|;
    var before, after := MarkedPlaces(events, m), MarkedPlaces(events + [e], m);
    forall i: nat ensures i in after <==> i in before || (i == n && m in e.marks) { MarkedFront(events, e, m, i); }
    assert after == if m in e.marks then before + {n} else before;
    OneMore(before, after, n, m in e.marks);
  }

  lemma RepeatedMore(upper: Upper, events: seq<Event>, e: Event)
    ensures |RepeatedPlaces(upper, events + [e])| ==
            |RepeatedPlaces(upper, events)| + One(RepeatedAt(upper, events + [e], |events|))
  {
    var n := |events|;
    var before, after := RepeatedPlaces(upper, events), RepeatedPlaces(upper, events + [e]);
    forall i: nat | i < n ensures RepeatedAt(upper, events + [e], i) <==> RepeatedAt(upper, events, i) {}
    assert after == if RepeatedAt(upper, events + [e], n) then before + {n} else before;
    OneMore(before, after, n, RepeatedAt(upper, events + [e], n));
  }

  lemma RecountMore(upper: Upper, events: seq<Event>, e: Event)
    ensures Recount(upper, events + [e]) == Counted(upper, Recount(upper, events), e, |events| + 1)
  {
    assert (events + [e])[..|events|] == events;
  }

  lemma MarkCountMore(c: Seen, marks: set<Mark>, m: Mark)
    requires m != RulesHelp && m != DialogueLoop
    ensures MarkCount(Marked(c, marks), m) == MarkCount(c, m) + One(m in marks)
  {
  }

  /** Each plainly counted mark is counted once for every event that carries it. */
  lemma {:induction false} MarksExact(upper: Upper, events: seq<Event>, m: Mark)
    requires m != RulesHelp && m != DialogueLoop
    ensures MarkCount(Recount(upper, events).seen, m) == |MarkedPlaces(events, m)|
  {
    if events == [] {
      assert MarkedPlaces(events, m) == {};
    } else {
      var front, e := events[..|events| - 1], events[|events| - 1];
      assert events == front + [e];
      MarksExact(upper, front, m);
      MarkedMore(front, e, m);
      RecountMore(upper, front, e);
      MarkCountMore(Recount(upper, front).seen, e.marks, m);
    }
  }

  lemma PriorInvalid(upper: Upper, events: seq<Event>)
    ensures Recount(upper, events).priorInvalid ==
            if events != [] && events[|events| - 1].outcome == Invalid then Memo(upper(events[|events| - 1].action))
            else NoMemo
  {
  }

  /** Repeated failures are the invalid events right after another one with the same action in upper case. */
  lemma {:induction false} RepeatedExact(upper: Upper, events: seq<Event>)
    ensures Recount(upper, events).repeated == |RepeatedPlaces(upper, events)|
  {
    if events == [] {
      assert RepeatedPlaces(upper, events) == {};
    } else {
      var front, e := events[..|events| - 1], events[|events| - 1];
      assert events == front + [e];
      RepeatedExact(upper, front);
      PriorInvalid(upper, front);
      RepeatedMore(upper, front, e);
      RecountMore(upper, front, e);
    }
  }

  // Why an invalid event failed: its own reason, or that its action was not expected.
  predicate FailedFor(upper: Upper, e: Event, reason: string) {
    && e.outcome == Invalid
    && (if |e.reason| > 0 then reason == e.reason
        else if |upper(e.action)| > 0 then reason == "unexpected_action:" + upper(e.action)
        else reason == "unexpected_action:unknown")
  }

  ghost function FailedPlaces(upper: Upper, events: seq<Event>, reason: string): set<nat> {
    set i: nat | i < |events| && FailedFor(upper, events[i], reason)
  }

  lemma FailedMore(upper: Upper, events: seq<Event>, e: Event, reason: string)
    ensures |FailedPlaces(upper, events + [e], reason)| ==
            |FailedPlaces(upper, events, reason)| + One(FailedFor(upper, e, reason))
  {
    var n := |events|;
    var before, after := FailedPlaces(upper, events, reason), FailedPlaces(upper, events + [e], reason);
    assert after == if FailedFor(upper, e, reason) then before + {n} else before;
    OneMore(before, after, n, FailedFor(upper, e, reason));
  }

  lemma ReasonCounted(upper: Upper, t: Tally, e: Event, index: int, reason: string)
    ensures Counted(upper, t, e, index).reasons[reason] == t.reasons[reason] + One(FailedFor(upper, e, reason))
  {
    assert "unexpected_action:" + "unknown" == "unexpected_action:unknown";
    assert e.outcome == Invalid ==> (FailedFor(upper, e, reason) <==> reason == ReasonOf(upper, e));
  }

  /** Every reason of failure is counted once for each event that failed for it. */
  lemma {:induction false} ReasonsExact(upper: Upper, events: seq<Event>, reason: string)
    ensures Recount(upper, events).reasons[reason] == |FailedPlaces(upper, events, reason)|
  {
    if events == [] {
      assert FailedPlaces(upper, events, reason) == {};
    } else {
      var front, e := events[..|events| - 1], events[|events| - 1];
      assert events == front + [e];
      ReasonsExact(upper, front, reason);
      FailedMore(upper, front, e, reason);
      ReasonCounted(upper, Recount(upper, front), e, |events|, reason);
      RecountMore(upper, front, e);
    }
  }

  // Help asked for in time, and before that in the same step.
  ghost predicate AskedAgain(actions: seq<string>, i: nat) {
    && i < |actions| && InTime(actions, i)
    && exists j: nat :: j < i && AskedInStep(actions, j, RecordAfter(actions[..i]).stepIndex)
  }

  ghost predicate AskedInStep(actions: seq<string>, j: nat, step: nat) {
    j < |actions| && InTime(actions, j) && RecordAfter(actions[..j]).stepIndex == step
  }

  ghost function LoopPlaces(actions: seq<string>): set<nat> {
    set i: nat | i < |actions| && AskedAgain(actions, i)
  }

  lemma AskedFront(actions: seq<string>, front: seq<string>, j: nat, step: nat)
    requires front <= actions && j < |front|
    ensures AskedInStep(actions, j, step) <==> AskedInStep(front, j, step)
  {
    assert actions[..j] == front[..j];
  }

  lemma RecordMore(actions: seq<string>)
    requires actions != []
    ensures RecordAfter(actions) == Act(RecordAfter(actions[..|actions| - 1]), actions[|actions| - 1]).0
  {
  }

  lemma {:induction false} StepsBehind(actions: seq<string>, j: nat)
    requires j <= |actions|
    ensures RecordAfter(actions[..j]).stepIndex <= RecordAfter(actions).stepIndex
  {
    if j < |actions| {
      var front := actions[..|actions| - 1];
      assert front[..j] == actions[..j];
      StepsBehind(front, j);
      RecordMore(actions);
    } else {
      assert actions[..j] == actions;
    }
  }

  // The record remembers whether help was asked for in the step it is at.
  lemma {:induction false} HelpRemembered(actions: seq<string>)
    requires !RecordAfter(actions).completed
    ensures RecordAfter(actions).hadHelpThisStep <==>
            exists j: nat :: AskedInStep(actions, j, RecordAfter(actions).stepIndex)
  {
    if actions != [] {
      var n := |actions| - 1;
      var front := actions[..n];
      var before, after := RecordAfter(front), RecordAfter(actions);
      RecordMore(actions);
      HelpRemembered(front);
      if after.stepIndex == before.stepIndex {
        SameStepHelp(actions, after.stepIndex);
      } else {
        NewStepHelp(actions, after.stepIndex);
      }
    }
  }

  lemma SameStepHelp(actions: seq<string>, step: nat)
    requires actions != []
    ensures var front := actions[..|actions| - 1];
            (exists j: nat :: AskedInStep(actions, j, step)) <==>
            (exists j: nat :: AskedInStep(front, j, step)) || AskedInStep(actions, |front|, step)
  {
    var front := actions[..|actions| - 1];
    forall j: nat | j < |front| ensures AskedInStep(actions, j, step) <==> AskedInStep(front, j, step) {
      AskedFront(actions, front, j, step);
    }
  }

  lemma EarlierStep(actions: seq<string>, j: nat, step: nat)
    requires j < |actions| && RecordAfter(actions[..|actions| - 1]).stepIndex < step
    ensures !AskedInStep(actions, j, step)
  {
    var front := actions[..|actions| - 1];
    assert actions[..j] == front[..j];
    StepsBehind(front, j);
  }

  lemma NewStepHelp(actions: seq<string>, step: nat)
    requires actions != [] && RecordAfter(actions[..|actions| - 1]).stepIndex < step
    ensures forall j: nat :: !AskedInStep(actions, j, step)
  {
    forall j: nat ensures !AskedInStep(actions, j, step) {
      if j < |actions| { EarlierStep(actions, j, step); }
    }
  }

  lemma AskedAmong(actions: seq<string>, front: seq<string>, step: nat)
    requires front <= actions
    ensures (exists j: nat :: j < |front| && AskedInStep(actions, j, step)) <==>
            (exists j: nat :: AskedInStep(front, j, step))
  {
    forall j: nat | j < |front| ensures AskedInStep(actions, j, step) <==> AskedInStep(front, j, step) {
      AskedFront(actions, front, j, step);
    }
  }

  lemma LastAskedAgain(actions: seq<string>)
    requires actions != []
    ensures var before := RecordAfter(actions[..|actions| - 1]);
            AskedAgain(actions, |actions| - 1) <==>
            !before.completed && actions[|actions| - 1] == "ASK_HELP" && before.hadHelpThisStep
  {
    var front := actions[..|actions| - 1];
    if !RecordAfter(front).completed {
      HelpRemembered(front);
      AskedAmong(actions, front, RecordAfter(front).stepIndex);
    }
  }

  lemma AskedAgainFront(actions: seq<string>, i: nat)
    requires actions != [] && i < |actions| - 1
    ensures AskedAgain(actions, i) <==> AskedAgain(actions[..|actions| - 1], i)
  {
    var front := actions[..|actions| - 1];
    assert front[..i] == actions[..i];
    var step := RecordAfter(actions[..i]).stepIndex;
    forall j: nat | j < i ensures AskedInStep(actions, j, step) <==> AskedInStep(front, j, step) {
      AskedFront(actions, front, j, step);
    }
  }

  lemma LoopPlaceFront(actions: seq<string>, i: nat)
    requires actions != []
    ensures i in LoopPlaces(actions) <==>
            if i == |actions| - 1 then AskedAgain(actions, i) else i in LoopPlaces(actions[..|actions| - 1])
  {
    if i < |actions| - 1 { AskedAgainFront(actions, i); }
  }

  lemma PlacesMore(before: set<nat>, after: set<nat>, n: nat, joins: bool)
    requires n !in before && forall i: nat :: i in after <==> if i == n then joins else i in before
    ensures |after| == |before| + One(joins)
  {
    assert after == if joins then before + {n} else before;
    OneMore(before, after, n, joins);
  }

  lemma LoopPlacesMore(actions: seq<string>)
    requires actions != []
    ensures |LoopPlaces(actions)| ==
            |LoopPlaces(actions[..|actions| - 1])| + One(AskedAgain(actions, |actions| - 1))
  {
    var n := |actions| - 1;
    var before, after, joins := LoopPlaces(actions[..n]), LoopPlaces(actions), AskedAgain(actions, n);
    forall i: nat ensures i in after <==> if i == n then joins else i in before { LoopPlaceFront(actions, i); }
    PlacesMore(before, after, n, joins);
  }

  lemma LoopRecorded(r: Record, action: string)
    ensures Act(r, action).0.dialogueLoops ==
            r.dialogueLoops + One(!r.completed && action == "ASK_HELP" && r.hadHelpThisStep)
  {
  }

  /** A dialogue loop is recorded for each request for help before completion that repeats one made in the same step. */
  lemma {:induction false} LoopsExact(actions: seq<string>)
    ensures RecordAfter(actions).dialogueLoops == |LoopPlaces(actions)|
  {
    if actions == [] {
      assert LoopPlaces(actions) == {};
    } else {
      var front := actions[..|actions| - 1];
      LoopsExact(front);
      LastAskedAgain(actions);
      LoopPlacesMore(actions);
      LoopRecorded(RecordAfter(front), actions[|actions| - 1]);
    }
  }

  /** The six actions that complete the onboarding, and what is recorded then. */
  lemma SixActionsComplete()
    ensures RecordAfter(["START", "READ_INSTRUCTIONS", "COMPLETE_FIRST_GOAL", "CLAIM_REWARD", "CHOOSE_PATH",
                         "FINISH_ONBOARDING"]) == Record(6, 0, 0, 0, 0, true, false)
  {
    ExpectedCompletes(6);
    assert EXPECTED[..6] == EXPECTED;
    assert EXPECTED == ["START", "READ_INSTRUCTIONS", "COMPLETE_FIRST_GOAL", "CLAIM_REWARD", "CHOOSE_PATH",
                        "FINISH_ONBOARDING"];
  }
}
