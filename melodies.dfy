/**
 * The horn melody. A note is the name of a key of the buzzer's note table;
 * the pitches themselves belong to the buzzer driver and are not modelled.
 * The divider of an entry gives its length as a fraction of a whole note,
 * and a negative divider marks a dotted note.
 */
module Melodies {

  datatype Note = A5 | B4 | B5 | C5 | C6 | DS5 | E5 | E6 | F5 | FS5 | G5 | G6 | GS5 | Rest

  /** A melody entry: (note, divider). */
  type Entry = (Note, int)

  /** The `pacman` melody. */
  const Pacman: seq<Entry> := [
    (B4, 16), (B5, 16), (FS5, 16), (DS5, 16), (B5, 32), (FS5, -16), (DS5, 8),
    (C5, 16), (C6, 16), (G6, 16), (E6, 16), (C6, 32), (G6, -16), (E6, 8),
    (B4, 16), (B5, 16), (FS5, 16), (DS5, 16), (B5, 32), (FS5, -16), (DS5, 8),
    (DS5, 32), (E5, 32), (F5, 32), (F5, 32), (FS5, 32), (G5, 32), (G5, 32), (GS5, 32),
    (A5, 16), (B5, 8)
  ]

  /** The dividers of a melody, in order. */
  function Dividers(m: seq<Entry>): (d: seq<int>)
    ensures |d| == |m| && forall i :: 0 <= i < |m| ==> d[i] == m[i].1
  {
    seq(|m|, i requires 0 <= i < |m| => m[i].1)
  }

  /** The divider pattern the first three phrases share. */
  const PhrasePattern: seq<int> := [16, 16, 16, 16, 32, -16, 8]

  lemma PacmanLength()
    ensures |Pacman| == 31
  {
  }

  /** Every divider is 8, 16, 32 or -16; none is zero. */
  lemma PacmanDividers()
    ensures forall i :: 0 <= i < |Pacman| ==> Pacman[i].1 in {8, 16, 32, -16}
    ensures forall i :: 0 <= i < |Pacman| ==> Pacman[i].1 != 0
  {
  }

  /** Exactly the entries 5, 12 and 19 are dotted, each a dotted sixteenth. */
  lemma PacmanDotted()
    ensures forall i :: 0 <= i < |Pacman| ==> (Pacman[i].1 < 0 <==> i == 5 || i == 12 || i == 19)
    ensures Pacman[5].1 == Pacman[12].1 == Pacman[19].1 == -16
  {
  }

  /** Taking the dividers commutes with slicing. */
  lemma DividersSlice(m: seq<Entry>, lo: nat, hi: nat)
    requires lo <= hi <= |m|
    ensures Dividers(m[lo..hi]) == Dividers(m)[lo..hi]
  {
    assert forall i :: 0 <= i < hi - lo ==> Dividers(m[lo..hi])[i] == m[lo + i].1;
  }

  /** The rhythm of `pacman`: three phrases of the shared pattern, then a run of 32nds. */
  lemma PacmanRhythm()
    ensures Dividers(Pacman) == PhrasePattern + PhrasePattern + PhrasePattern + [32, 32, 32, 32, 32, 32, 32, 32, 16, 8]
  {
    var all := PhrasePattern + PhrasePattern + PhrasePattern + [32, 32, 32, 32, 32, 32, 32, 32, 16, 8];
    assert |all| == 31;
    forall i | 0 <= i < 31
      ensures Dividers(Pacman)[i] == all[i]
    {
    }
  }

  /** The first three seven-note phrases have the same rhythm. */
  lemma PacmanPhrases()
    ensures Dividers(Pacman[0..7]) == PhrasePattern
    ensures Dividers(Pacman[7..14]) == PhrasePattern
    ensures Dividers(Pacman[14..21]) == PhrasePattern
  {
    PacmanRhythm();
    var tail := [32, 32, 32, 32, 32, 32, 32, 32, 16, 8];
    var all := PhrasePattern + PhrasePattern + PhrasePattern + tail;
    assert all == PhrasePattern + (PhrasePattern + (PhrasePattern + tail));
    DividersSlice(Pacman, 0, 7);
    DividersSlice(Pacman, 7, 14);
    DividersSlice(Pacman, 14, 21);
  }

  /** The third phrase repeats the first note for note. */
  lemma PacmanRepeat()
    ensures Pacman[0..7] == Pacman[14..21]
  {
  }
}
