/**
 * The stand-alone tune player: it walks a melody of (note, divider) entries
 * and, for each entry, makes two blocking calls of the tone function, the
 * note for nine tenths of the entry's duration and a rest for one tenth.
 */
module Tune {

  import opened Wrappers
  import opened Numeric
  import opened Melodies

  const Tempo: int := 95

  /** The length of a whole note in milliseconds: four beats at the tempo. */
  const Wholenote: int := Trunc((60000 * 4) as real / Tempo as real)

  /** Dotted notes last half as long again in this player. */
  const Dotted: real := 1.5

  lemma WholenoteValue()
    ensures Wholenote == 2526
  {
  }

  /**
   * The duration an entry with a non-zero divider sets: `int(wholenote / d)`
   * for a positive divider, `-1 * int(wholenote / d)` stretched by the dotted
   * factor for a negative one.
   */
  function Duration(divider: int, dotted: real): (d: real)
    requires divider != 0
  {
    if divider > 0 then Trunc(Wholenote as real / divider as real) as real
    else (-1 * Trunc(Wholenote as real / divider as real)) as real * dotted
  }

  /** Both signs of divider give the whole note divided by its magnitude, rounded down; dots stretch it. */
  lemma DurationFloor(divider: int, dotted: real)
    requires divider != 0 && dotted >= 0.0
    ensures divider > 0 ==> Duration(divider, dotted) == (Wholenote / divider) as real
    ensures divider < 0 ==> Duration(divider, dotted) == (Wholenote / -divider) as real * dotted
    ensures Duration(divider, dotted) >= 0.0
  {
    WholenoteValue();
    var n := -divider;
    var q := Trunc(Wholenote as real / divider as real);
    if divider > 0 {
      assert Wholenote as real / divider as real >= 0.0;
      FloorOfQuotient(Wholenote, divider);
    } else {
      assert Wholenote as real / divider as real == -(Wholenote as real / n as real);
      TruncOdd(Wholenote as real / n as real);
      FloorOfQuotient(Wholenote, n);
    }
  }

  /** Real division of naturals, rounded down, is integer division. */
  lemma FloorOfQuotient(a: nat, b: int)
    requires b > 0
    ensures Trunc(a as real / b as real) == a / b
  {
    var q := a / b;
    var r := a % b;
    assert a == q * b + r;
    assert a as real / b as real == q as real + r as real / b as real;
    assert 0.0 <= r as real / b as real < 1.0;
  }

  /** A dotted note is strictly positive exactly when its magnitude does not exceed a whole note. */
  lemma DottedPositive(divider: int, dotted: real)
    requires divider < 0 && dotted > 0.0
    ensures Duration(divider, dotted) > 0.0 <==> -divider <= Wholenote
  {
    DurationFloor(divider, dotted);
    WholenoteValue();
  }

  lemma DurationExamples()
    ensures Duration(8, Dotted) == 315.0
    ensures Duration(16, Dotted) == 157.0
    ensures Duration(32, Dotted) == 78.0
    ensures Duration(-16, Dotted) == 235.5
    ensures Duration(-16, 1.25) == 196.25
  {
    DurationFloor(8, Dotted);
    DurationFloor(16, Dotted);
    DurationFloor(32, Dotted);
    DurationFloor(-16, Dotted);
    DurationFloor(-16, 1.25);
    WholenoteValue();
  }

  /** A call `tune_function(note, ms, blocking=True)`. */
  datatype ToneCall = ToneCall(note: Note, ms: int)

  /** The note time: `int(noteDuration * 0.9)`. */
  function NoteMs(duration: real): int
  {
    Trunc(duration * 0.9)
  }

  /** The rest time: `int(noteDuration * 0.1)`. */
  function RestMs(duration: real): int
  {
    Trunc(duration * 0.1)
  }

  /** Truncation never lengthens an entry: the note and the rest together fit its duration, losing less than 2 ms. */
  lemma EntryFits(duration: real)
    requires duration >= 0.0
    ensures 0 <= NoteMs(duration) && 0 <= RestMs(duration)
    ensures duration - 2.0 < (NoteMs(duration) + RestMs(duration)) as real <= duration
  {
  }

  /**
   * What the player does: the calls made and whether it finished. The
   * duration carried from entry to entry is `None` until an entry with a
   * non-zero divider sets it, because `noteDuration` is a local variable of
   * `play_tune` (the module-level one of the same name is shadowed); reading
   * it unset raises `NameError` (`UnboundLocalError` on CPython), before either
   * call for that entry.
   */
  datatype Schedule = Schedule(calls: seq<ToneCall>, complete: bool)

  function Scheduled(melody: seq<Entry>, duration: Option<real>): Schedule
    decreases |melody|
  {
    if melody == [] then Schedule([], true)
    else
      var (note, divider) := melody[0];
      var d := if divider != 0 then Some(Duration(divider, Dotted)) else duration;
      if d.None? then Schedule([], false)
      else
        var rest := Scheduled(melody[1..], d);
        Schedule([ToneCall(note, NoteMs(d.value)), ToneCall(Rest, RestMs(d.value))] + rest.calls, rest.complete)
  }

  /** Calls alternate note and rest, two per entry of a prefix of the melody, in melody order. */
  predicate Alternates(calls: seq<ToneCall>, melody: seq<Entry>)
  {
    && |calls| % 2 == 0 && |calls| / 2 <= |melody|
    && forall i :: 0 <= i < |calls| / 2 ==> calls[2 * i].note == melody[i].0 && calls[2 * i + 1].note == Rest
  }

  /** Playing one more entry in front keeps the calls alternating. */
  lemma AlternatesCons(a: ToneCall, b: ToneCall, calls: seq<ToneCall>, melody: seq<Entry>)
    requires melody != [] && a.note == melody[0].0 && b.note == Rest
    requires Alternates(calls, melody[1..])
    ensures Alternates([a, b] + calls, melody)
  {
    var all := [a, b] + calls;
    forall i | 0 <= i < |all| / 2
      ensures all[2 * i].note == melody[i].0 && all[2 * i + 1].note == Rest
    {
      if i > 0 {
        var j := i - 1;
        assert 2 * i == 2 * j + 2;
        assert all[2 * j + 2] == calls[2 * j] && all[2 * j + 3] == calls[2 * j + 1];
        assert melody[i] == melody[1..][j];
      }
    }
  }

  /**
   * The shape of the call sequence: two calls per entry played, note then
   * rest, in melody order, and all of them when the player completes.
   */
  lemma {:induction false} ScheduleShape(melody: seq<Entry>, duration: Option<real>)
    ensures var s := Scheduled(melody, duration);
      Alternates(s.calls, melody) && (s.complete ==> |s.calls| == 2 * |melody|)
    decreases |melody|
  {
    if melody != [] {
      var (note, divider) := melody[0];
      var d := if divider != 0 then Some(Duration(divider, Dotted)) else duration;
      if d.Some? {
        ScheduleShape(melody[1..], d);
        AlternatesCons(ToneCall(note, NoteMs(d.value)), ToneCall(Rest, RestMs(d.value)), Scheduled(melody[1..], d).calls, melody);
      }
    }
  }

  /** Every tone call lasts a non-negative number of milliseconds once a duration is known. */
  lemma {:induction false} ScheduleNonNegative(melody: seq<Entry>, duration: Option<real>)
    requires duration.Some? ==> duration.value >= 0.0
    ensures forall c :: c in Scheduled(melody, duration).calls ==> c.ms >= 0
    decreases |melody|
  {
    if melody != [] {
      var (note, divider) := melody[0];
      var d := if divider != 0 then Some(Duration(divider, Dotted)) else duration;
      if divider != 0 {
        DurationFloor(divider, Dotted);
      }
      if d.Some? {
        EntryFits(d.value);
        ScheduleNonNegative(melody[1..], d);
      }
    }
  }

  /** Once a duration is known the player always completes. */
  lemma {:induction false} KnownDurationCompletes(melody: seq<Entry>, d: real)
    ensures Scheduled(melody, Some(d)).complete
    decreases |melody|
  {
    if melody != [] {
      var divider := melody[0].1;
      KnownDurationCompletes(melody[1..], if divider != 0 then Duration(divider, Dotted) else d);
    }
  }

  /** As written, the player completes exactly when the melody is empty or does not open with a zero divider. */
  lemma {:induction false} CompletesIff(melody: seq<Entry>)
    ensures Scheduled(melody, None).complete <==> melody == [] || melody[0].1 != 0
  {
    if melody != [] && melody[0].1 != 0 {
      KnownDurationCompletes(melody[1..], Duration(melody[0].1, Dotted));
    }
  }

  /** The starting duration only matters to entries before the first non-zero divider. */
  lemma {:induction false} StartIrrelevant(melody: seq<Entry>, a: Option<real>, b: Option<real>)
    requires melody != [] && melody[0].1 != 0
    ensures Scheduled(melody, a) == Scheduled(melody, b)
  {
  }

  /** A melody that opens with a zero divider makes no call at all as written. */
  lemma LeadingZeroDividerFails()
    ensures Scheduled([(B4, 0)], None) == Schedule([], false)
  {
  }

  /** Starting from the module-level `noteDuration = 0`, the same melody plays a silent note and a silent rest. */
  lemma LeadingZeroDividerIntended()
    ensures Scheduled([(B4, 0)], Some(0.0)) == Schedule([ToneCall(B4, 0), ToneCall(Rest, 0)], true)
  {
  }

  /**
   * The player as evidently intended: `noteDuration` starts at the
   * module-level 0, so every melody plays to the end, two calls per entry.
   */
  function IntendedSchedule(melody: seq<Entry>): (s: Schedule)
    ensures s.complete && |s.calls| == 2 * |melody|
    ensures forall i :: 0 <= i < |melody| ==> s.calls[2 * i].note == melody[i].0 && s.calls[2 * i + 1].note == Rest
  {
    KnownDurationCompletes(melody, 0.0);
    ScheduleShape(melody, Some(0.0));
    Scheduled(melody, Some(0.0))
  }

  /** The intended player and the one as written differ only on melodies that open with a zero divider. */
  lemma {:induction false} IntendedAgrees(melody: seq<Entry>)
    ensures IntendedSchedule(melody) == Scheduled(melody, None) <==> melody == [] || melody[0].1 != 0
  {
    CompletesIff(melody);
    if melody != [] && melody[0].1 != 0 {
      StartIrrelevant(melody, Some(0.0), None);
    }
  }

  /** `play_tune`: the for loop over the melody, recording each call. */
  method PlayTune(melody: seq<Entry>) returns (calls: seq<ToneCall>, complete: bool)
    ensures Schedule(calls, complete) == Scheduled(melody, None)
  {
    var noteDuration: Option<real> := None;
    calls := [];
    var i := 0;
    while i < |melody|
      invariant 0 <= i <= |melody|
      invariant Scheduled(melody, None) ==
                var rest := Scheduled(melody[i..], noteDuration); Schedule(calls + rest.calls, rest.complete)
    {
      assert melody[i..][1..] == melody[i + 1..];
      var (note, divider) := melody[i];
      if divider > 0 {
        noteDuration := Some(Trunc(Wholenote as real / divider as real) as real);
      } else if divider < 0 {
        noteDuration := Some((-1 * Trunc(Wholenote as real / divider as real)) as real);
        noteDuration := Some(noteDuration.value * Dotted);
      }
      if noteDuration.None? {
        complete := false;
        return;
      }
      ghost var before := calls;
      calls := calls + [ToneCall(note, NoteMs(noteDuration.value)), ToneCall(Rest, RestMs(noteDuration.value))];
      AppendAssoc(before, calls[|before|..], Scheduled(melody[i + 1..], noteDuration).calls);
      i := i + 1;
    }
    complete := true;
  }

  /** The melody written out inside `play_tune`. */
  const Embedded: seq<Entry> := [
    (B4, 16), (B5, 16), (FS5, 16), (DS5, 16), (B5, 32), (FS5, -16), (DS5, 8),
    (C5, 16), (C6, 16), (G6, 16), (E6, 16), (C6, 32), (G6, -16), (E6, 8),
    (B4, 16), (B5, 16), (FS5, 16), (DS5, 16), (B5, 32), (FS5, -16), (DS5, 8),
    (DS5, 32), (E5, 32), (F5, 32), (F5, 32), (FS5, 32), (G5, 32), (G5, 32), (GS5, 32),
    (A5, 16), (B5, 8)
  ]

  /** The embedded melody is the shared `pacman` melody, entry for entry. */
  lemma EmbeddedIsPacman()
    ensures Embedded == Pacman
  {
  }

  /** Playing the embedded melody makes all 62 calls, note and rest alternating in melody order. */
  lemma {:induction false} EmbeddedPlaysFully()
    ensures var s := Scheduled(Embedded, None);
      && s == IntendedSchedule(Embedded)
      && s.complete && |s.calls| == 62
      && forall i :: 0 <= i < 31 ==> s.calls[2 * i].note == Embedded[i].0 && s.calls[2 * i + 1].note == Rest
  {
    IntendedAgrees(Embedded);
    CompletesIff(Embedded);
    ScheduleShape(Embedded, None);
  }
}
