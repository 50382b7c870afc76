/**
 * The trial itself: the checks, the optional wait for the leaderboard
 * service, the table, and the single trigger that ends the trial.
 *
 * What the host and the participant can observe is kept as a log of events:
 * each write of the display element, the call of `on_load`, the timeout armed
 * through the plugin API, and the call of `finishTrial`.
 */
module Session {
  import opened Wrappers
  import opened Rows
  import opened Params
  import opened Columns
  import opened Render

  /** What the display element holds. */
  datatype Display = Blank | Message(text: string) | Board(table: Table, continueButton: bool)

  datatype Event = Write(display: Display) | OnLoad | ArmTimer(ms: int) | Finish

  /** How the synchronous part of the trial, up to its first `await`, ends. */
  datatype Step =
    | Abort(error: Error)       // an error is logged and the trial is finished
    | Await(config: Config)     // the loading message is shown while the scores are fetched
    | Show(rows: seq<Row>, columns: seq<Column>, duration: Option<int>)
    | Crash                     // `Object.keys(undefined)` throws; the trial never finishes

  datatype Phase = Idle | Loading | Showing | Ended | Threw

  /** The one trigger that is live while the table is shown. */
  datatype Trigger = Unarmed | ContinueButton | Timeout(ms: int)

  predicate ClientReady(i: Integration) {
    i.Integration? && i.clientReady
  }

  /** The decision the trial makes from its parameters before it first waits. */
  function Launch(p: Params): (s: Step)
    ensures !WellFormed(p) ==> s == Abort(Validate(p).error)
    ensures WellFormed(p) && IdTruthy(p.leaderboardId) && !ClientReady(p.integration) ==>
      s == Abort(ClientNotInitialized)
    ensures s.Await? <==> WellFormed(p) && IdTruthy(p.leaderboardId) && ClientReady(p.integration)
    ensures s.Await? ==> s.config == Validate(p).value
    ensures s.Await? ==> s.config.source == Remote(p.leaderboardId.value, true)
    ensures s.Await? ==> s.config.loadingMessage == p.loadingMessage && s.config.duration == p.duration
    ensures s.Await? ==> s.config.columns == SuppliedColumns(p.columns) &&
                         Some(s.config.level) == ParseLevel(p.scoreLevel)
    ensures s.Crash? <==> WellFormed(p) && p.data == DataArray([]) && p.columns.ColumnsNull?
    ensures s.Show? <==>
      WellFormed(p) && !IdTruthy(p.leaderboardId) && (p.data != DataArray([]) || p.columns.ColumnsArray?)
    ensures s.Show? ==> s.rows == p.data.rows && s.duration == p.duration
    ensures s.Show? && p.columns.ColumnsArray? ==> s.columns == p.columns.cols
    ensures s.Show? && p.columns.ColumnsNull? ==>
      ColumnKeys(s.columns) == Keys(p.data.rows[0]) && forall j :: 0 <= j < |s.columns| ==> s.columns[j].name.None?
  {
    match Validate(p)
    case Err(e) => Abort(e)
    case Ok(c) =>
      match c.source
      case Remote(_, ready) => if ready then Await(c) else Abort(ClientNotInitialized)
      case Static(rows) =>
        match StaticColumns(c.columns, rows)
        case None => Crash
        case Some(cols) => Show(rows, cols, c.duration)
  }

  function TriggerFor(duration: Option<int>): Trigger {
    if duration.None? then ContinueButton else Timeout(duration.value)
  }

  predicate ShowsContinue(ev: seq<Event>) {
    exists i :: 0 <= i < |ev| && ev[i].Write? && ev[i].display.Board? && ev[i].display.continueButton
  }

  predicate ArmsTimer(ev: seq<Event>) {
    exists i :: 0 <= i < |ev| && ev[i].ArmTimer?
  }

  /**
   * From `on_load` to the armed trigger: the table is shown, with a Continue
   * button exactly when there is no duration, and a timeout of exactly the
   * duration (zero included) otherwise.
   */
  function ShowEvents(rows: seq<Row>, cols: seq<Column>, duration: Option<int>): (ev: seq<Event>)
    ensures |ev| == (if duration.None? then 2 else 3)
    ensures ev[0] == OnLoad && ev[1] == Write(Board(Rendered(rows, cols), duration.None?))
    ensures ShowsContinue(ev) <==> duration.None?
    ensures ArmsTimer(ev) <==> duration.Some?
    ensures forall i :: 0 <= i < |ev| && ev[i].ArmTimer? ==> i == |ev| - 1 && Some(ev[i].ms) == duration
    ensures Finish !in ev
  {
    var shown := [OnLoad, Write(Board(Rendered(rows, cols), duration.None?))];
    if duration.None? then shown
    else
      var armed := shown + [ArmTimer(duration.value)];
      assert armed[2].ArmTimer?;
      armed
  }

  /** Events of the synchronous part of the trial. */
  function LaunchEvents(s: Step): (ev: seq<Event>)
    // a rejected trial is finished before anything is shown and before `on_load`
    ensures s.Abort? <==> ev == [Finish]
    ensures OnLoad in ev <==> s.Show?
    ensures s.Await? ==> ev == [Write(Message(s.config.loadingMessage))]
    ensures s.Crash? ==> ev == []
    ensures s.Show? ==> ev == ShowEvents(s.rows, s.columns, s.duration)
  {
    match s
    case Abort(_) => [Finish]
    case Await(c) => [Write(Message(c.loadingMessage))]
    case Show(rows, cols, duration) => ShowEvents(rows, cols, duration)
    case Crash => []
  }

  /** Events once the fetched scores arrive: the loading message is cleared, then the table is shown. */
  function FetchedEvents(c: Config, fetched: seq<Row>): (ev: seq<Event>)
    ensures |ev| >= 3 && ev[0] == Write(Blank) && ev[1] == OnLoad
    ensures ev[2] == Write(Board(Rendered(fetched, RemoteColumns(c.columns, c.level)), c.duration.None?))
    ensures ev == [Write(Blank)] + ShowEvents(fetched, RemoteColumns(c.columns, c.level), c.duration)
    ensures ShowsContinue(ev) <==> c.duration.None?
    ensures ArmsTimer(ev) <==> c.duration.Some?
    ensures forall i :: 0 <= i < |ev| && ev[i].ArmTimer? ==> i == |ev| - 1 && Some(ev[i].ms) == c.duration
    ensures Finish !in ev
  {
    var shown := ShowEvents(fetched, RemoteColumns(c.columns, c.level), c.duration);
    var ev := [Write(Blank)] + shown;
    assert c.duration.Some? ==> ev[3].ArmTimer?;
    ev
  }

  function PhaseAfter(s: Step): Phase {
    match s
    case Abort(_) => Ended
    case Await(_) => Loading
    case Show(_, _, _) => Showing
    case Crash => Threw
  }

  /** What the display element holds after a sequence of events: its last write, blank at first. */
  function ScreenOf(ev: seq<Event>): Display {
    if ev == [] then Blank
    else if ev[|ev| - 1].Write? then ev[|ev| - 1].display
    else ScreenOf(ev[..|ev| - 1])
  }

  predicate HasWrite(ev: seq<Event>) {
    exists i :: 0 <= i < |ev| && ev[i].Write?
  }

  /** Later writes hide earlier ones; events that write nothing leave the display as it was. */
  lemma {:induction false} ScreenOfAppend(a: seq<Event>, b: seq<Event>)
    ensures ScreenOf(a + b) == if HasWrite(b) then ScreenOf(b) else ScreenOf(a)
    decreases |b|
  {
    if b == [] {
      assert a + b == a;
    } else {
      var n := |b| - 1;
      assert (a + b)[..|a + b| - 1] == a + b[..n];
      assert b[..n] == b[..|b| - 1];
      if !b[n].Write? {
        ScreenOfAppend(a, b[..n]);
        assert HasWrite(b) <==> HasWrite(b[..n]) by {
          if HasWrite(b) {
            var i :| 0 <= i < |b| && b[i].Write?;
            assert b[..n][i].Write?;
          }
          if HasWrite(b[..n]) {
            var i :| 0 <= i < n && b[..n][i].Write?;
            assert b[i].Write?;
          }
        }
      }
    }
  }

  /** The number of `finishTrial` calls in a sequence of events. */
  function FinishCount(ev: seq<Event>): nat {
    if ev == [] then 0
    else (if ev[0] == Finish then 1 else 0) + FinishCount(ev[1..])
  }

  lemma {:induction false} FinishCountAppend(a: seq<Event>, b: seq<Event>)
    ensures FinishCount(a + b) == FinishCount(a) + FinishCount(b)
    decreases |a|
  {
    if a == [] {
      assert a + b == b;
    } else {
      assert (a + b)[1..] == a[1..] + b;
      FinishCountAppend(a[1..], b);
    }
  }

  lemma {:induction false} NoFinishNoCount(ev: seq<Event>)
    requires Finish !in ev
    ensures FinishCount(ev) == 0
    decreases |ev|
  {
    if ev != [] {
      assert forall e :: e in ev[1..] ==> e in ev;
      NoFinishNoCount(ev[1..]);
    }
  }

  /** One run of the leaderboard trial, as the host sees it. */
  class Trial {
    var phase: Phase
    var events: seq<Event>
    /** The configuration waiting for the fetched scores (while `Loading`). */
    var pending: Option<Config>
    var trigger: Trigger

    ghost predicate Valid()
      reads this
    {
      && (phase == Idle ==> events == [])
      && (phase == Loading <==> pending.Some?)
      && (phase == Loading ==> ScreenOf(events) == Message(pending.value.loadingMessage))
      && (phase == Showing <==> trigger != Unarmed)
      && (phase == Showing ==> ScreenOf(events).Board? &&
                               ScreenOf(events).continueButton == (trigger == ContinueButton))
      && (phase == Ended ==> ScreenOf(events) == Blank)
      // `finishTrial` is called once when the trial has ended, and not before
      && FinishCount(events) == (if phase == Ended then 1 else 0)
    }

    /** The display element's current content. */
    function Screen(): Display
      reads this
    {
      ScreenOf(events)
    }

    constructor ()
      ensures Valid() && phase == Idle && events == [] && Screen() == Blank
    {
      phase, events, pending, trigger := Idle, [], None, Unarmed;
    }

    /** Runs the trial up to its first wait: the checks, then the loading message or the table. */
    method Start(p: Params)
      requires Valid() && phase == Idle
      modifies this
      ensures Valid()
      ensures events == LaunchEvents(Launch(p))
      ensures phase == PhaseAfter(Launch(p))
      ensures Launch(p).Await? ==> pending == Some(Launch(p).config)
      ensures Launch(p).Show? ==> trigger == TriggerFor(p.duration)
    {
      var checked := Validate(p);
      if checked.Err? {
        Reject();
        return;
      }
      var config := checked.value;
      if config.source.Remote? {
        if !config.source.clientReady {
          Reject();
          return;
        }
        events := events + [Write(Message(config.loadingMessage))];
        assert ScreenOf(events) == Message(config.loadingMessage) by {
          assert events[..|events| - 1] == [];
        }
        pending := Some(config);
        phase := Loading;
        return;
      }
      var cols := StaticColumns(config.columns, config.source.rows);
      if cols.None? {
        phase := Threw;
        return;
      }
      ShowTable(config.source.rows, cols.value, config.duration);
    }

    /** Resumes a remote trial when the fetched scores arrive. */
    method ScoresLoaded(fetched: seq<Row>)
      requires Valid() && phase == Loading
      modifies this
      ensures Valid() && phase == Showing && pending == None
      ensures events == old(events) + FetchedEvents(old(pending).value, fetched)
      ensures trigger == TriggerFor(old(pending).value.duration)
    {
      var config := pending.value;
      events := events + [Write(Blank)];
      NoFinishNoCount([Write(Blank)]);
      FinishCountAppend(old(events), [Write(Blank)]);
      var cols := RemoteColumns(config.columns, config.level);
      ShowTable(fetched, cols, config.duration);
    }

    /** A click on the Continue button; without a button on the screen nothing happens. */
    method ClickContinue()
      requires Valid()
      modifies this
      ensures Valid()
      ensures old(phase == Showing && trigger == ContinueButton) ==>
        phase == Ended && trigger == Unarmed && events == old(events) + [Write(Blank), Finish]
      ensures !old(phase == Showing && trigger == ContinueButton) ==> unchanged(this)
    {
      if phase == Showing && trigger == ContinueButton {
        EndTrial();
      }
    }

    /** The armed timeout elapses; without an armed timeout nothing happens. */
    method TimerFires()
      requires Valid()
      modifies this
      ensures Valid()
      ensures old(phase == Showing && trigger.Timeout?) ==>
        phase == Ended && trigger == Unarmed && events == old(events) + [Write(Blank), Finish]
      ensures !old(phase == Showing && trigger.Timeout?) ==> unchanged(this)
    {
      if phase == Showing && trigger.Timeout? {
        EndTrial();
      }
    }

    /** `on_load`, the table, then the button or the timeout. */
    method ShowTable(rows: seq<Row>, cols: seq<Column>, duration: Option<int>)
      requires FinishCount(events) == 0
      modifies this
      ensures Valid() && phase == Showing && pending == None && trigger == TriggerFor(duration)
      ensures events == old(events) + ShowEvents(rows, cols, duration)
    {
      events := events + [OnLoad];
      var table := BuildTable(rows, cols);
      events := events + [Write(Board(table, duration.None?))];
      if duration.None? {
        trigger := ContinueButton;
      } else {
        events := events + [ArmTimer(duration.value)];
        trigger := Timeout(duration.value);
      }
      var shown := ShowEvents(rows, cols, duration);
      assert events == old(events) + shown;
      assert HasWrite(shown) by { assert shown[1].Write?; }
      ScreenOfAppend(old(events), shown);
      assert ScreenOf(shown) == Write(Board(table, duration.None?)).display by {
        if duration.Some? {
          assert shown[..|shown| - 1] == [OnLoad, Write(Board(table, duration.None?))];
        }
      }
      NoFinishNoCount(shown);
      FinishCountAppend(old(events), shown);
      pending := None;
      phase := Showing;
    }

    /** `end_trial`: the display is cleared, then `finishTrial` is called. */
    method EndTrial()
      requires Valid() && phase == Showing
      modifies this
      ensures Valid() && phase == Ended && trigger == Unarmed
      ensures events == old(events) + [Write(Blank), Finish]
    {
      FinishCountAppend(events, [Write(Blank), Finish]);
      assert FinishCount([Write(Blank), Finish]) == 1 by {
        assert [Write(Blank), Finish][1..] == [Finish];
        assert [Finish][1..] == [];
      }
      events := events + [Write(Blank), Finish];
      assert ScreenOf(events) == Blank by {
        assert events[..|events| - 1] == old(events) + [Write(Blank)];
      }
      trigger := Unarmed;
      phase := Ended;
    }

    /** A rejected trial: an error is logged and `finishTrial` is called, with nothing shown. */
    method Reject()
      requires Valid() && phase == Idle
      modifies this
      ensures Valid() && phase == Ended && events == [Finish] && trigger == Unarmed && pending == None
    {
      events := [Finish];
      assert [Finish][1..] == [];
      assert ScreenOf(events) == ScreenOf([]);
      phase, trigger, pending := Ended, Unarmed, None;
    }
  }
}
