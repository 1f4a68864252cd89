/** The keyboard's note catalogue: thirteen keys, each with its fundamental
    frequency in Hz, its label and whether it is a sharp (black) key. The
    position of a note in the catalogue is the key that triggers it. */
module NoteTable {
  import opened Wrappers

  // `keyLabel` is the label shown on the key ("label" is a Dafny keyword).
  datatype Note = Note(frequency: real, keyLabel: string, isSharp: bool)

  /** The eight naturals C-3 .. C-4 come first, then the five sharps. */
  const Notes: seq<Note> := [
    Note(130.81, "C-3", false),
    Note(146.83, "D-3", false),
    Note(164.81, "E-3", false),
    Note(174.61, "F-3", false),
    Note(196.0, "G-3", false),
    Note(220.0, "A-3", false),
    Note(246.94, "B-3", false),
    Note(261.63, "C-4", false),
    Note(138.59, "C#3", true),
    Note(155.56, "D#3", true),
    Note(185.0, "F#3", true),
    Note(207.65, "G#3", true),
    Note(233.08, "A#3", true)
  ]

  /** Number of natural keys; they occupy indices 0 .. NaturalCount - 1. */
  const NaturalCount: nat := 8

  /** Indexing the catalogue. An index outside it yields no note (the
      handler then fails before it builds anything). */
  function Lookup(i: int): (r: Option<Note>)
    ensures r.Some? <==> 0 <= i < |Notes|
    ensures r.Some? ==> r.value == Notes[i]
    ensures r.Some? ==> (r.value.isSharp <==> NaturalCount <= i)
  {
    if 0 <= i < |Notes| then Some(Notes[i]) else None
  }

  /** Each note is higher than the one before it. */
  ghost predicate StepsUp(ns: seq<Note>) {
    forall i :: 0 <= i < |ns| - 1 ==> ns[i].frequency < ns[i + 1].frequency
  }

  /** Any note is lower than every note after it. */
  ghost predicate RisesInPitch(ns: seq<Note>) {
    forall i, j :: 0 <= i < j < |ns| ==> ns[i].frequency < ns[j].frequency
  }

  lemma {:induction false} StepsUpRises(ns: seq<Note>)
    requires StepsUp(ns)
    ensures RisesInPitch(ns)
  {
    if |ns| > 1 {
      var tail := ns[1..];
      assert StepsUp(tail) by {
        forall i | 0 <= i < |tail| - 1 ensures tail[i].frequency < tail[i + 1].frequency {
          assert tail[i] == ns[i + 1] && tail[i + 1] == ns[i + 2];
        }
      }
      StepsUpRises(tail);
      forall i, j | 0 <= i < j < |ns| ensures ns[i].frequency < ns[j].frequency {
        if i == 0 {
          if j > 1 {
            assert ns[1] == tail[0] && ns[j] == tail[j - 1];
          }
        } else {
          assert ns[i] == tail[i - 1] && ns[j] == tail[j - 1];
        }
      }
    }
  }

  /** The first eight entries are the naturals, in rising pitch. */
  lemma NaturalsRise()
    ensures |Notes| == 13
    ensures forall i :: 0 <= i < NaturalCount ==> !Notes[i].isSharp
    ensures RisesInPitch(Notes[..NaturalCount])
  {
    StepsUpRises(Notes[..NaturalCount]);
  }

  /** The last five entries are the sharps, in rising pitch. */
  lemma SharpsRise()
    ensures forall i :: NaturalCount <= i < |Notes| ==> Notes[i].isSharp
    ensures RisesInPitch(Notes[NaturalCount..])
  {
    StepsUpRises(Notes[NaturalCount..]);
  }

  /** Each sharp lies strictly between the two naturals it sits between on
      the keyboard: C#3 between C-3 and D-3, D#3 between D-3 and E-3, F#3
      between F-3 and G-3, G#3 between G-3 and A-3, A#3 between A-3 and B-3. */
  lemma SharpsBetweenNaturals()
    ensures forall k :: 0 <= k < 5 ==>
      var below := [0, 1, 3, 4, 5][k];
      Notes[below].frequency < Notes[NaturalCount + k].frequency < Notes[below + 1].frequency
  {
  }

  /** Labels tell the keys apart (the keyboard uses them as element keys). */
  lemma LabelsDistinct()
    ensures forall i, j :: 0 <= i < j < |Notes| ==> Notes[i].keyLabel != Notes[j].keyLabel
  {
  }
}
