/** spotmicro/lcd_screen_controller/lcd_screen_controller.py: the screen
    process reads status tokens from its queue into four status attributes
    and, whenever the queue stays empty for its one-second timeout, redraws
    the screen; the second row ends with seven characters: a blank, the
    remote-controller icon, a blank, the abort icon, a blank, and the two
    motion-controller icons, each icon chosen from its status attribute. */
module LcdScreenController {
  import opened Common
  import MotionController

  // Indices of the custom characters loaded into the screen.
  const IconSuccess := 1
  const IconProblem := 6
  const IconSuccessReverse := 7

  /** `abort_controller`, `remote_controller_controller`,
      `motion_controller_1`, `motion_controller_2`; None until a token
      arrives. */
  datatype Status = Status(abort: Option<string>, remote: Option<string>, motion1: Option<string>, motion2: Option<string>)

  const Unknown := Status(None, None, None, None)

  const AbortPrefix := "abort_controller "
  const RemotePrefix := "remote_controller_connected "
  const Motion1Prefix := "motion_controller_1 "
  const Motion2Prefix := "motion_controller_2 "

  /** `event.startswith(prefix)`, and then `event[len(prefix):]`. */
  function After(prefix: string, event: string): Option<string> {
    if prefix <= event then Some(event[|prefix|..]) else None
  }

  /** The four `if event.startswith(...)` statements, in order. */
  function Apply(s: Status, event: string): Status {
    var s1 := if After(AbortPrefix, event).Some? then s.(abort := After(AbortPrefix, event)) else s;
    var s2 := if After(RemotePrefix, event).Some? then s1.(remote := After(RemotePrefix, event)) else s1;
    var s3 := if After(Motion1Prefix, event).Some? then s2.(motion1 := After(Motion1Prefix, event)) else s2;
    if After(Motion2Prefix, event).Some? then s3.(motion2 := After(Motion2Prefix, event)) else s3
  }

  /** No token starts with two of the prefixes. */
  lemma PrefixesExclusive(event: string)
    ensures AbortPrefix <= event ==> !(RemotePrefix <= event) && !(Motion1Prefix <= event) && !(Motion2Prefix <= event)
    ensures RemotePrefix <= event ==> !(Motion1Prefix <= event) && !(Motion2Prefix <= event)
    ensures Motion1Prefix <= event ==> !(Motion2Prefix <= event)
  {
    if AbortPrefix <= event {
      assert event[0] == 'a';
    }
    if RemotePrefix <= event {
      assert event[0] == 'r';
    }
    if Motion1Prefix <= event {
      assert event[0] == 'm' && event[18] == '1';
    }
    assert Motion2Prefix[0] == 'm' && Motion2Prefix[18] == '2';
  }

  /** A token with one of the prefixes sets that attribute to exactly the
      rest of the token and leaves the other three; any other token changes
      nothing. */
  lemma ApplySetsOneField(s: Status, event: string)
    ensures var r := Apply(s, event);
      (AbortPrefix <= event ==> r == s.(abort := Some(event[|AbortPrefix|..]))) &&
      (RemotePrefix <= event ==> r == s.(remote := Some(event[|RemotePrefix|..]))) &&
      (Motion1Prefix <= event ==> r == s.(motion1 := Some(event[|Motion1Prefix|..]))) &&
      (Motion2Prefix <= event ==> r == s.(motion2 := Some(event[|Motion2Prefix|..]))) &&
      (!(AbortPrefix <= event) && !(RemotePrefix <= event) && !(Motion1Prefix <= event) && !(Motion2Prefix <= event) ==> r == s)
  {
    PrefixesExclusive(event);
  }

  /** The remote controller's icon. */
  function RemoteIcon(v: Option<string>): (icon: int)
    ensures icon == IconSuccess <==> v == Some("OK")
    ensures icon == IconSuccessReverse <==> v == Some("SEARCHING")
    ensures icon == IconSuccess || icon == IconSuccessReverse || icon == IconProblem
  {
    if v == Some("OK") then IconSuccess
    else if v == Some("SEARCHING") then IconSuccessReverse
    else IconProblem
  }

  /** The abort controller's and each motion controller board's icon. */
  function StatusIcon(v: Option<string>): (icon: int)
    ensures icon == IconSuccess <==> v == Some("OK")
    ensures icon == IconProblem <==> v != Some("OK")
  {
    if v == Some("OK") then IconSuccess else IconProblem
  }

  /** The status characters `update_lcd_creen` writes, left to right. */
  function Icons(s: Status): seq<int> {
    [RemoteIcon(s.remote), StatusIcon(s.abort), StatusIcon(s.motion1), StatusIcon(s.motion2)]
  }

  /** Before any token arrives every icon is the problem icon. */
  lemma UnknownShowsProblems()
    ensures Icons(Unknown) == [IconProblem, IconProblem, IconProblem, IconProblem]
  {
  }

  /** What a motion controller reports reaches its icon: the OK token of a
      board shows the success icon, the NOK token the problem icon, and the
      other attributes are untouched. */
  lemma StatusTokenRoundTrip(s: Status, b: BoardId, present: bool)
    ensures var r := Apply(s, MotionController.StatusToken(b, present));
      (b == Board1 ==> r == s.(motion1 := Some(if present then "OK" else "NOK"))) &&
      (b == Board2 ==> r == s.(motion2 := Some(if present then "OK" else "NOK"))) &&
      Icons(r)[if b == Board1 then 2 else 3] == (if present then IconSuccess else IconProblem)
  {
    var t := MotionController.StatusToken(b, present);
    ApplySetsOneField(s, t);
    if b == Board1 {
      assert Motion1Prefix <= t;
      assert t[|Motion1Prefix|..] == if present then "OK" else "NOK";
    } else {
      assert Motion2Prefix <= t;
      assert t[|Motion2Prefix|..] == if present then "OK" else "NOK";
    }
  }

  /** The loop over what the queue yields: a token, or None when the
      one-second timeout expires, which redraws the screen. The result is
      the new status and the status rows drawn. */
  function Process(s: Status, items: seq<Option<string>>): (Status, seq<seq<int>>)
    decreases |items|
  {
    if items == [] then (s, [])
    else
      var s1 := if items[0].Some? then Apply(s, items[0].value) else s;
      var (s2, drawn) := Process(s1, items[1..]);
      (s2, (if items[0].None? then [Icons(s)] else []) + drawn)
  }

  /** Tokens alone never redraw. */
  lemma {:induction false} TokensNeverDraw(s: Status, items: seq<Option<string>>)
    requires forall i :: 0 <= i < |items| ==> items[i].Some?
    ensures Process(s, items).1 == []
    decreases |items|
  {
    if items != [] {
      TokensNeverDraw(Apply(s, items[0].value), items[1..]);
    }
  }

  /** Receiving one stretch of the queue and then another is receiving
      both: the status carries over and the rows drawn are concatenated. */
  lemma {:induction false} ProcessAppend(s: Status, xs: seq<Option<string>>, ys: seq<Option<string>>)
    ensures var (s1, d1) := Process(s, xs);
      Process(s, xs + ys) == (Process(s1, ys).0, d1 + Process(s1, ys).1)
    decreases |xs|
  {
    if xs == [] {
      assert xs + ys == ys;
      assert [] + Process(s, ys).1 == Process(s, ys).1;
    } else {
      assert (xs + ys)[0] == xs[0];
      assert (xs + ys)[1..] == xs[1..] + ys;
      var s1 := Next(s, xs[0]);
      ProcessAppend(s1, xs[1..], ys);
      ProcessCons(s, xs);
      ProcessCons(s, xs + ys);
      var r := Process(s1, xs[1..]);
      var q := Process(r.0, ys);
      assert Drawn(s, xs[0]) + (r.1 + q.1) == (Drawn(s, xs[0]) + r.1) + q.1;
    }
  }

  /** The status after one item, and the rows it draws. */
  function Next(s: Status, item: Option<string>): Status {
    if item.Some? then Apply(s, item.value) else s
  }

  function Drawn(s: Status, item: Option<string>): seq<seq<int>> {
    if item.None? then [Icons(s)] else []
  }

  lemma ProcessCons(s: Status, items: seq<Option<string>>)
    requires items != []
    ensures Process(s, items) ==
      (Process(Next(s, items[0]), items[1..]).0, Drawn(s, items[0]) + Process(Next(s, items[0]), items[1..]).1)
  {
  }

  /** A redraw right after a token shows that token's effect. */
  lemma RedrawAfterToken(s: Status, token: string, rest: seq<Option<string>>)
    ensures var drawn := Process(s, [Some(token), None] + rest).1;
      |drawn| >= 1 && drawn[0] == Icons(Apply(s, token))
  {
    var items := [Some(token), None] + rest;
    assert items[1..] == [None] + rest;
    assert ([None] + rest)[1..] == rest;
  }

  class LcdScreen {
    var isAlive: bool
    var abortController: Option<string>
    var remoteControllerController: Option<string>
    var motionController1: Option<string>
    var motionController2: Option<string>
    /** The status rows drawn so far. */
    var drawn: seq<seq<int>>

    function State(): Status
      reads this
    {
      Status(abortController, remoteControllerController, motionController1, motionController2)
    }

    /** `__init__`: `screenStarts` is whether opening the I2C screen and the
        first draw succeed; if not, the controller is not alive. */
    constructor (screenStarts: bool)
      ensures State() == Unknown && isAlive == screenStarts
      ensures drawn == if screenStarts then [Icons(Unknown)] else []
    {
      isAlive := false;
      abortController, remoteControllerController := None, None;
      motionController1, motionController2 := None, None;
      drawn := [];
      new;
      if screenStarts {
        UpdateLcdScreen();
        isAlive := true;
      }
    }

    /** `update_lcd_creen`, as far as the status icons go. */
    method UpdateLcdScreen()
      modifies this
      ensures drawn == old(drawn) + [Icons(State())]
      ensures State() == old(State()) && isAlive == old(isAlive)
    {
      drawn := drawn + [Icons(State())];
    }

    /** The body of the `try` for one received token. */
    method HandleToken(event: string)
      modifies this
      ensures State() == Apply(old(State()), event)
      ensures drawn == old(drawn) && isAlive == old(isAlive)
    {
      if AbortPrefix <= event {
        abortController := Some(event[|AbortPrefix|..]);
      }
      if RemotePrefix <= event {
        remoteControllerController := Some(event[|RemotePrefix|..]);
      }
      if Motion1Prefix <= event {
        motionController1 := Some(event[|Motion1Prefix|..]);
      }
      if Motion2Prefix <= event {
        motionController2 := Some(event[|Motion2Prefix|..]);
      }
    }

    /** `do_process_events_from_queue` over what the queue yields; a
        controller that is not alive returns at once. */
    method DoProcessEventsFromQueue(items: seq<Option<string>>)
      modifies this
      ensures !old(isAlive) ==> State() == old(State()) && drawn == old(drawn)
      ensures old(isAlive) ==> (State(), drawn) == (Process(old(State()), items).0, old(drawn) + Process(old(State()), items).1)
      ensures isAlive == old(isAlive)
    {
      if !isAlive {
        return;
      }
      ghost var s0, d0 := State(), drawn;
      var i := 0;
      assert items[0..] == items && drawn[|d0|..] == [];
      assert Process(s0, items).1 == [] + Process(s0, items).1;
      while i < |items|
        invariant 0 <= i <= |items| && isAlive == old(isAlive)
        invariant |drawn| >= |d0| && drawn[..|d0|] == d0
        invariant Process(s0, items).0 == Process(State(), items[i..]).0
        invariant Process(s0, items).1 == drawn[|d0|..] + Process(State(), items[i..]).1
        decreases |items| - i
      {
        assert items[i..][1..] == items[i + 1..];
        ghost var before, sb := drawn, State();
        ProcessCons(sb, items[i..]);
        ghost var r := Process(Next(sb, items[i]), items[i + 1..]);
        assert before[|d0|..] + (Drawn(sb, items[i]) + r.1) == (before[|d0|..] + Drawn(sb, items[i])) + r.1;
        if items[i].Some? {
          HandleToken(items[i].value);
          assert drawn[|d0|..] == before[|d0|..] + Drawn(sb, items[i]);
        } else {
          UpdateLcdScreen();
          assert drawn[|d0|..] == before[|d0|..] + Drawn(sb, items[i]);
        }
        i := i + 1;
      }
      assert items[i..] == [];
      assert drawn[|d0|..] + [] == drawn[|d0|..];
      assert drawn == d0 + drawn[|d0|..];
    }
  }
}
