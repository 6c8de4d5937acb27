// The match-window calculator (src/janelas.py): from the kickoff time it lays out
// four 15-minute windows before the match, eight during it and eight after it.
// Times are integer minutes; a timedelta of n minutes is the addition of n.
module Windows {

  /** Length of every collection window, in minutes (hard-coded in the calculator). */
  const WindowMinutes: int := 15

  /** A collection window [start, end), in minutes. */
  datatype Window = Window(start: int, end: int)

  /** The three phase window lists ("pre_jogo", "durante_jogo", "pos_jogo"). */
  datatype MatchWindows = MatchWindows(pre: seq<Window>, during: seq<Window>, post: seq<Window>)

  /** Window number i of a run of back-to-back windows whose first one starts at base. */
  function Slot(base: int, i: int): (w: Window)
    ensures w.end == w.start + WindowMinutes
  {
    Window(base + WindowMinutes * i, base + WindowMinutes * i + WindowMinutes)
  }

  /** The layout the calculator promises, written in closed form. */
  function Schedule(kickoff: int): (w: MatchWindows)
    ensures |w.pre| == 4 && |w.during| == 8 && |w.post| == 8
    ensures w.pre[0].start == kickoff - 60 && w.pre[3].end == kickoff
    ensures w.during[0].start == kickoff && w.post[0].start == w.during[7].end
    ensures w.post[0].start == kickoff + 120 && w.post[7].end == kickoff + 240
  {
    MatchWindows(
      seq(4, i => Slot(kickoff - 60, i)),
      seq(8, i => Slot(kickoff, i)),
      seq(8, i => Slot(kickoff + 120, i)))
  }

  /** calcular_janelas: the three loops of the source, appending one window per step. */
  method ComputeWindows(kickoff: int) returns (w: MatchWindows)
    ensures w == Schedule(kickoff)
  {
    // Before the match: i = 4, 3, 2, 1; the window ends (i - 1) * 15 minutes before kickoff.
    var pre: seq<Window> := [];
    var i := 4;
    while i > 0
      invariant 0 <= i <= 4
      invariant |pre| == 4 - i
      invariant forall k :: 0 <= k < |pre| ==> pre[k] == Slot(kickoff - 60, k)
    {
      var end := kickoff - (i - 1) * WindowMinutes;
      var start := end - WindowMinutes;
      pre := pre + [Window(start, end)];
      i := i - 1;
    }
    // During the match: window i starts i * 15 minutes after kickoff.
    var during: seq<Window> := [];
    for j := 0 to 8
      invariant |during| == j
      invariant forall k :: 0 <= k < j ==> during[k] == Slot(kickoff, k)
    {
      var start := kickoff + j * WindowMinutes;
      var end := start + WindowMinutes;
      during := during + [Window(start, end)];
    }
    // After the match: the same, counted from 120 minutes after kickoff.
    var matchEnd := kickoff + 120;
    var post: seq<Window> := [];
    for j := 0 to 8
      invariant |post| == j
      invariant forall k :: 0 <= k < j ==> post[k] == Slot(matchEnd, k)
    {
      var start := matchEnd + j * WindowMinutes;
      var end := start + WindowMinutes;
      post := post + [Window(start, end)];
    }
    w := MatchWindows(pre, during, post);
  }

  /** All twenty windows in phase order. */
  function Timeline(w: MatchWindows): seq<Window> {
    w.pre + w.during + w.post
  }

  /** The twenty windows are back-to-back 15-minute slots from kickoff - 60 to kickoff + 240. */
  lemma {:induction false} TimelineIsSlots(kickoff: int)
    ensures var t := Timeline(Schedule(kickoff));
      |t| == 20 && forall i :: 0 <= i < 20 ==> t[i] == Slot(kickoff - 60, i)
  {
    var w := Schedule(kickoff);
    var t := Timeline(w);
    forall i | 0 <= i < 20
      ensures t[i] == Slot(kickoff - 60, i)
    {
      if i < 4 {
        assert t[i] == w.pre[i];
      } else if i < 12 {
        assert t[i] == w.during[i - 4] == Slot(kickoff, i - 4);
      } else {
        assert t[i] == w.post[i - 12] == Slot(kickoff + 120, i - 12);
      }
    }
  }

  /** The timeline is one gap-free chain without overlaps, strictly increasing,
      covering exactly kickoff - 60 to kickoff + 240. */
  lemma {:induction false} TimelineChain(kickoff: int)
    ensures var t := Timeline(Schedule(kickoff));
      && |t| == 20
      && t[0].start == kickoff - 60 && t[19].end == kickoff + 240
      && (forall i :: 0 <= i < 20 ==> t[i].start < t[i].end == t[i].start + WindowMinutes)
      && (forall i :: 0 <= i < 19 ==> t[i].end == t[i + 1].start)
      && (forall i, j :: 0 <= i < j < 20 ==> t[i].end <= t[j].start)
  {
    TimelineIsSlots(kickoff);
  }

  function Shift(w: Window, d: int): Window {
    Window(w.start + d, w.end + d)
  }

  function ShiftAll(s: seq<Window>, d: int): (r: seq<Window>)
    ensures |r| == |s| && forall i :: 0 <= i < |s| ==> r[i] == Shift(s[i], d)
  {
    seq(|s|, i requires 0 <= i < |s| => Shift(s[i], d))
  }

  /** No rounding: moving the kickoff by d moves every window bound by exactly d. */
  lemma {:induction false} ScheduleShift(kickoff: int, d: int)
    ensures var w := Schedule(kickoff);
      Schedule(kickoff + d) == MatchWindows(ShiftAll(w.pre, d), ShiftAll(w.during, d), ShiftAll(w.post, d))
  {
    var w, v := Schedule(kickoff), Schedule(kickoff + d);
    SlotsShift(w.pre, v.pre, kickoff - 60, d);
    SlotsShift(w.during, v.during, kickoff, d);
    SlotsShift(w.post, v.post, kickoff + 120, d);
  }

  lemma {:induction false} SlotsShift(s: seq<Window>, t: seq<Window>, base: int, d: int)
    requires |s| == |t|
    requires forall i :: 0 <= i < |s| ==> s[i] == Slot(base, i)
    requires forall i :: 0 <= i < |t| ==> t[i] == Slot(base + d, i)
    ensures t == ShiftAll(s, d)
  {
    var r := ShiftAll(s, d);
    forall i | 0 <= i < |t|
      ensures t[i] == r[i]
    {
      assert r[i] == Shift(Slot(base, i), d);
    }
  }
}
