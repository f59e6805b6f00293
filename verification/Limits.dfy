/** Where the promises of the matching engine stop: short runs on which a property fails once the
    condition it is proved under is dropped. */
module Limits {
  import opened Basics
  import opened Rules
  import opened Events
  import opened Patterns
  import opened Shards
  import opened Witnesses
  import opened NegativeExits
  import opened Reopenings
  import opened Scenarios
  import opened SweepTransparency
  import opened SweepVisibility
  import opened Forgetting
  import opened Invariants
  import opened Carried

  /** The condition `behavior = b`. */
  function Is(b: string): RuleNode { Same("behavior", Str(b)) }

  function Positive(b: string, wait: Option<TimeWindow>): PatternState {
    PatternState(b, Is(b), wait, false, map[])
  }

  function Negative(b: string, wait: TimeWindow): PatternState {
    PatternState(b, Is(b), Some(wait), true, map[])
  }

  function Sample(id: string, member: string, behavior: string, t: int): Event {
    Event(id, member, behavior, map[], t)
  }

  const FIVE := TimeWindow(5, "minutes")

  /** "login", then no "verify" within five minutes. */
  const MISSED := Pattern("missed", "Missed", [Positive("login", None), Negative("verify", FIVE)])

  /** "a", then "b" within five minutes, then "c" at any time. */
  const OPEN_ENDED := Pattern("open", "Open", [Positive("a", None), Positive("b", Some(FIVE)), Positive("c", None)])

  lemma IsHolds(e: Event, b: string, vars: map<string, Value>)
    requires b != "" && b[0] != '$'
    ensures Satisfies(e, Is(b), vars) <==> e.behavior == b
  {
    assert "behavior"[0] == 'b';
    EqualityIsMet(e, vars, Is(b), Str(b));
  }

  lemma FiveMinutes()
    ensures Duration(Some(FIVE)) == 5 * MINUTE
  {
    assert ToLower("minutes") == "minutes";
  }

  lemma Waits()
    ensures MaxWait(MISSED.states) == 5 * MINUTE && MaxWait(OPEN_ENDED.states) == 5 * MINUTE
    ensures Proper([MISSED]) && Proper([OPEN_ENDED])
  {
    FiveMinutes();
    var a, b := MISSED.states, OPEN_ENDED.states;
    assert a[..1][..0] == [] && MaxWait(a[..1]) == 0;
    assert b[..2][..1][..0] == [] && MaxWait(b[..2][..1]) == 0 && MaxWait(b[..2]) == 5 * MINUTE;
  }

  /** The engine with one pattern. */
  function Only(pat: Pattern, lateness: int): Config { Config([pat], 0, lateness) }

  const ALICE := "alice"

  function Login(): Event { Sample("e0", ALICE, "login", 0) }

  lemma LoginClimbs()
    ensures Ladder(MISSED, [Login()], ALICE, 0)
  {
    IsHolds(Login(), "login", map[]);
    hide Satisfies;
    assert [Login()][..0] == [];
    assert ChainAt(MISSED, [Login()], 0);
  }

  /** After the login the progress waits for the deadline five minutes on. */
  lemma AfterLogin(lateness: int)
    requires lateness >= 0
    ensures var s, pid := Run(Only(MISSED, lateness), [Login()]), ProgressID("missed", ALICE, "e0");
            && s.watermark == 0 && Inv(Only(MISSED, lateness), s) && Stored(s, ALICE, pid)
            && StoredAt(s, ALICE, pid) == Standing(MISSED, [Login()])
            && StoredAt(s, ALICE, pid).negativeDeadline == 5 * MINUTE
            && Sound([MISSED], ALICE, pid, StoredAt(s, ALICE, pid))
  {
    hide Satisfies, RunWith;
    Waits();
    FiveMinutes();
    LoginClimbs();
    var cfg, pid := Only(MISSED, lateness), ProgressID("missed", ALICE, "e0");
    Attempt(cfg, true, MISSED, [Login()], ALICE);
    assert ProgressOK([MISSED], Run(cfg, [Login()]).heap, ALICE, pid, StoredAt(Run(cfg, [Login()]), ALICE, pid));
  }

  /** The sweep runs before the drain. So when the member's own event is the one that moves the
      watermark past the deadline, the match that was due is lost; without the sweep it is made. */
  lemma OwnEventLosesTheMatch()
    ensures var cfg, browse := Only(MISSED, 0), Sample("e1", ALICE, "browse", 5 * MINUTE + 1);
            var x := Entry(5 * MINUTE, ALICE, ProgressID("missed", ALICE, "e0"));
            && x !in Out(cfg, Run(cfg, [Login()]), browse).expired
            && x in OutWith(cfg, false, Run(cfg, [Login()]), browse).expired
  {
    hide Satisfies, Run, OutWith, Next, Leaves, Sound, Inv, Standing, ExitOf;
    var cfg, browse := Only(MISSED, 0), Sample("e1", ALICE, "browse", 5 * MINUTE + 1);
    var s, pid := Run(cfg, [Login()]), ProgressID("missed", ALICE, "e0");
    Waits();
    AfterLogin(0);
    assert IDs([Login()]) == ["e0"];
    assert Spending(cfg, s, browse, MISSED, [Login()], pid);
    StandingAtDeadline(cfg, s, browse, MISSED, [Login()], pid);
    NegativeExitIsExact(cfg, s, browse, ALICE, pid);
    SweptIsNot(cfg, s, browse, ALICE, pid);
    ExpiresUnswept(cfg, s, browse, ALICE, pid);
  }

  /** Redelivering a start event after its progress was aborted reopens it, and the engine then
      reports that nothing happened although the forbidden event came in time. */
  lemma RedeliveredStartForgetsTheAbort()
    ensures var cfg, verify := Only(MISSED, MINUTE), Sample("e1", ALICE, "verify", SECOND);
            var x := Entry(5 * MINUTE, ALICE, ProgressID("missed", ALICE, "e0"));
            && OnTimeAt(cfg, [Login(), verify, Login()], 1) && verify.occurredAt <= x.deadline
            && Satisfies(verify, MISSED.states[1].condition, map[])
            && x in Out(cfg, Run(cfg, [Login(), verify, Login()]), Outsider(x, "e2", MINUTE)).expired
  {
    hide Satisfies, RunWith, Next, Out, Standing;
    var cfg, verify := Only(MISSED, MINUTE), Sample("e1", ALICE, "verify", SECOND);
    var es, pid := [Login(), verify], ProgressID("missed", ALICE, "e0");
    var x := Entry(5 * MINUTE, ALICE, pid);
    Waits();
    IsHolds(verify, "verify", map[]);
    AfterLogin(MINUTE);
    VerifyAborts();
    LoginClimbs();
    assert [Login(), verify, Login()][..1] == [Login()];
    assert es + [Login()] == [Login(), verify, Login()];
    ClimbAtOnce(cfg, true, es, MISSED, [Login()], ALICE, 0);
    DeadlinePasses(cfg, es + [Login()], x, "e2");
  }

  lemma VerifyAborts()
    ensures var s := Run(Only(MISSED, MINUTE), [Login(), Sample("e1", ALICE, "verify", SECOND)]);
            s.watermark == 0 && !Stored(s, ALICE, ProgressID("missed", ALICE, "e0"))
  {
    hide Satisfies, Run, NextWith, OutWith;
    var cfg, verify := Only(MISSED, MINUTE), Sample("e1", ALICE, "verify", SECOND);
    var s, pid := Run(cfg, [Login()]), ProgressID("missed", ALICE, "e0");
    Waits();
    AfterLogin(MINUTE);
    var p := StoredAt(s, ALICE, pid);
    IsHolds(verify, "verify", p.variables);
    assert p.processedEvents == ["e0"];
    assert ExitOf(cfg, s, verify, ALICE, p) == Aborts;
    assert [Login(), verify] == [Login()] + [verify];
    RunSnoc(cfg, [Login()], verify);
    NegativeExitIsExact(cfg, s, verify, ALICE, pid);
    WatermarkOf(cfg, true, s, verify);
  }

  /** A state without a wait does not lengthen maxDuration, so the sweep drops a progress that could
      still complete. */
  lemma SweepLosesOpenEnded()
    ensures var cfg, es := Only(OPEN_ENDED, 0), [Sample("e0", ALICE, "a", 0), Sample("e1", ALICE, "b", 0)];
            var c, pid := Sample("e2", ALICE, "c", 5 * MINUTE + 1), ProgressID("open", ALICE, "e0");
            && pid !in Out(cfg, Run(cfg, es), c).completed
            && pid in OutWith(cfg, false, Run(cfg, es), c).completed
  {
    hide Satisfies, RunWith, OutWith, Advance, NextWith;
    var cfg, es := Only(OPEN_ENDED, 0), [Sample("e0", ALICE, "a", 0), Sample("e1", ALICE, "b", 0)];
    var c, pid := Sample("e2", ALICE, "c", 5 * MINUTE + 1), ProgressID("open", ALICE, "e0");
    Waits();
    OpenEndedClimbs(es);
    Attempt(cfg, true, OPEN_ENDED, es, ALICE);
    IsHolds(c, "c", VarsAfter(OPEN_ENDED, es));
    assert IDs(es) == ["e0", "e1"];
    LastRungCompletes([OPEN_ENDED], OPEN_ENDED, es, c);
    SweptCannotComplete(cfg, Run(cfg, es), c, pid);
    UnsweptCompletes(cfg, Run(cfg, es), c, pid);
  }

  lemma OpenEndedClimbs(es: seq<Event>)
    requires es == [Sample("e0", ALICE, "a", 0), Sample("e1", ALICE, "b", 0)]
    ensures Ladder(OPEN_ENDED, es, ALICE, 0)
  {
    IsHolds(es[0], "a", VarsAfter(OPEN_ENDED, es[..0]));
    IsHolds(es[1], "b", VarsAfter(OPEN_ENDED, es[..1]));
    FiveMinutes();
    hide Satisfies, VarsAfter;
    assert ChainAt(OPEN_ENDED, es, 0) && ChainAt(OPEN_ENDED, es, 1);
  }

  lemma LoginMeets()
    ensures CanBeMet(MISSED)
  {
    LoginClimbs();
    hide Satisfies;
    assert ChainAt(MISSED, [Login()], 0) && MatchesAt(MISSED, [Login()], ALICE, 0);
    assert Matches(MISSED, [Login()], ALICE) && |[Login()]| == Positives(MISSED);
  }

  lemma OpenEndedMeets()
    ensures CanBeMet(OPEN_ENDED)
  {
    var ws := [Sample("e0", ALICE, "a", 0), Sample("e1", ALICE, "b", 0), Sample("e2", ALICE, "c", 0)];
    IsHolds(ws[0], "a", VarsAfter(OPEN_ENDED, ws[..0]));
    IsHolds(ws[1], "b", VarsAfter(OPEN_ENDED, ws[..1]));
    IsHolds(ws[2], "c", VarsAfter(OPEN_ENDED, ws[..2]));
    hide Satisfies, VarsAfter;
    assert ws[..0] == [] && VarsAfter(OPEN_ENDED, []) == VarsAfter(OPEN_ENDED, ws[..0]);
    assert MatchesAt(OPEN_ENDED, ws, ALICE, 0) && MatchesAt(OPEN_ENDED, ws, ALICE, 1);
    assert MatchesAt(OPEN_ENDED, ws, ALICE, 2);
    assert Matches(OPEN_ENDED, ws, ALICE) && |ws| == Positives(OPEN_ENDED);
  }

  /** Neither of the two patterns is closed, so neither engine may drop its sweep unseen, whatever the
      lateness. */
  lemma NeitherSweepIsUnseen(lateness: int)
    requires lateness >= 0
    ensures !(forall es, e :: Identified(es + [e]) ==> SweepUnseen(Only(MISSED, lateness), es, e))
    ensures !(forall es, e :: Identified(es + [e]) ==> SweepUnseen(Only(OPEN_ENDED, lateness), es, e))
  {
    Waits();
    LoginMeets();
    OpenEndedMeets();
    hide CanBeMet, SweepUnseen, Proper;
    assert MISSED in Only(MISSED, lateness).patterns && OPEN_ENDED in Only(OPEN_ENDED, lateness).patterns;
    SweepIsInvisibleIff(Only(MISSED, lateness));
    SweepIsInvisibleIff(Only(OPEN_ENDED, lateness));
  }
}
