/** The chord reference data of GuitarChord.swift: eight open chords, each a
    list of six finger positions from string 6 (low E) to string 1 (high E). */
module Chords {

  /** One string of a fingering. `stringNumber` is 1 (high E) to 6 (low E);
      `fret` is -1 for a muted string, 0 for an open one, otherwise the fret;
      `finger` is 0 for none, then 1 index, 2 middle, 3 ring, 4 little. */
  datatype FingerPosition = FingerPosition(stringNumber: int, fret: int, finger: int)

  datatype Chord = C | D | E | G | A | Am | Em | Dm

  const AllChords: seq<Chord> := [C, D, E, G, A, Am, Em, Dm]

  function RawValue(c: Chord): string
  {
    match c
    case C => "C"
    case D => "D"
    case E => "E"
    case G => "G"
    case A => "A"
    case Am => "Am"
    case Em => "Em"
    case Dm => "Dm"
  }

  function FingerPositions(c: Chord): (ps: seq<FingerPosition>)
    ensures StringsDescend(ps)
  {
    match c
    case C => [
      FingerPosition(6, -1, 0), FingerPosition(5, 3, 3), FingerPosition(4, 2, 2),
      FingerPosition(3, 0, 0), FingerPosition(2, 1, 1), FingerPosition(1, 0, 0)]
    case G => [
      FingerPosition(6, 3, 3), FingerPosition(5, 2, 2), FingerPosition(4, 0, 0),
      FingerPosition(3, 0, 0), FingerPosition(2, 0, 0), FingerPosition(1, 3, 4)]
    case D => [
      FingerPosition(6, -1, 0), FingerPosition(5, -1, 0), FingerPosition(4, 0, 0),
      FingerPosition(3, 2, 1), FingerPosition(2, 3, 3), FingerPosition(1, 2, 2)]
    case Em => [
      FingerPosition(6, 0, 0), FingerPosition(5, 2, 2), FingerPosition(4, 2, 3),
      FingerPosition(3, 0, 0), FingerPosition(2, 0, 0), FingerPosition(1, 0, 0)]
    case Am => [
      FingerPosition(6, -1, 0), FingerPosition(5, 0, 0), FingerPosition(4, 2, 2),
      FingerPosition(3, 2, 3), FingerPosition(2, 1, 1), FingerPosition(1, 0, 0)]
    case E => [
      FingerPosition(6, 0, 0), FingerPosition(5, 2, 2), FingerPosition(4, 2, 3),
      FingerPosition(3, 1, 1), FingerPosition(2, 0, 0), FingerPosition(1, 0, 0)]
    case A => [
      FingerPosition(6, -1, 0), FingerPosition(5, 0, 0), FingerPosition(4, 2, 1),
      FingerPosition(3, 2, 2), FingerPosition(2, 2, 3), FingerPosition(1, 0, 0)]
    case Dm => [
      FingerPosition(6, -1, 0), FingerPosition(5, -1, 0), FingerPosition(4, 0, 0),
      FingerPosition(3, 2, 2), FingerPosition(2, 3, 3), FingerPosition(1, 1, 1)]
  }

  /** The tab written above each case, string 6 first, `x` for a muted string. */
  function TabComment(c: Chord): string
  {
    match c
    case C => "x-3-2-0-1-0"
    case G => "3-2-0-0-0-3"
    case D => "x-x-0-2-3-2"
    case Em => "0-2-2-0-0-0"
    case Am => "x-0-2-2-1-0"
    case E => "0-2-2-1-0-0"
    case A => "x-0-2-2-2-0"
    case Dm => "x-x-0-2-3-1"
  }

  // ---------------------------------------------------------------------------
  // Reading a tab

  function TabSymbol(ch: char): int
  {
    if ch == 'x' then -1
    else if '0' <= ch <= '9' then (ch - '0') as int
    else -2
  }

  /** The frets of a dash-separated tab, one symbol per string. */
  function ParseTab(s: string): seq<int>
  {
    if |s| == 0 then []
    else if |s| == 1 then [TabSymbol(s[0])]
    else [TabSymbol(s[0])] + ParseTab(s[2..])
  }

  function Frets(ps: seq<FingerPosition>): seq<int>
  {
    if ps == [] then [] else [ps[0].fret] + Frets(ps[1..])
  }

  // ---------------------------------------------------------------------------
  // What a well-formed fingering is

  /** Six positions, for strings 6, 5, 4, 3, 2, 1 in that order. */
  predicate StringsDescend(ps: seq<FingerPosition>)
  {
    |ps| == 6 && forall i :: 0 <= i < 6 ==> ps[i].stringNumber == 6 - i
  }

  /** Frets in {-1, 0, 1, 2, 3}, fingers in 0..4. */
  predicate InDomain(ps: seq<FingerPosition>)
  {
    forall i :: 0 <= i < |ps| ==> -1 <= ps[i].fret <= 3 && 0 <= ps[i].finger <= 4
  }

  /** A finger is assigned exactly to the fretted strings. */
  predicate FingerIffFretted(ps: seq<FingerPosition>)
  {
    forall i :: 0 <= i < |ps| ==> (ps[i].finger > 0 <==> ps[i].fret > 0)
  }

  /** No finger holds down two strings. */
  predicate DistinctFingers(ps: seq<FingerPosition>)
  {
    forall i, j :: 0 <= i < j < |ps| && ps[i].finger > 0 ==> ps[i].finger != ps[j].finger
  }

  /** Number of positions with a finger, counted like `filter { $0.finger > 0 }.count`. */
  function RequiredCount(ps: seq<FingerPosition>): nat
  {
    if ps == [] then 0
    else RequiredCount(ps[..|ps| - 1]) + (if ps[|ps| - 1].finger > 0 then 1 else 0)
  }

  predicate WellFormed(ps: seq<FingerPosition>)
  {
    StringsDescend(ps) && InDomain(ps) && FingerIffFretted(ps) && DistinctFingers(ps)
  }

  // ---------------------------------------------------------------------------
  // Facts about the eight chords, proved by computation

  /** Every chord has six positions for strings 6..1, frets and fingers in
      their documented domains, a finger exactly on the fretted strings, and
      no finger used twice. */
  lemma ChordWellFormed(c: Chord)
    ensures WellFormed(FingerPositions(c))
  {
    ChordInDomain(c);
    ChordFingerIffFretted(c);
    ChordDistinctFingers(c);
  }

  lemma ChordInDomain(c: Chord)
    ensures InDomain(FingerPositions(c))
  {
    match c
    case C => {}
    case D => {}
    case E => {}
    case G => {}
    case A => {}
    case Am => {}
    case Em => {}
    case Dm => {}
  }

  lemma ChordFingerIffFretted(c: Chord)
    ensures FingerIffFretted(FingerPositions(c))
  {
    match c
    case C => {}
    case D => {}
    case E => {}
    case G => {}
    case A => {}
    case Am => {}
    case Em => {}
    case Dm => {}
  }

  lemma ChordDistinctFingers(c: Chord)
    ensures DistinctFingers(FingerPositions(c))
  {
    match c
    case C => {}
    case D => {}
    case E => {}
    case G => {}
    case A => {}
    case Am => {}
    case Em => {}
    case Dm => {}
  }

  /** A six-string tab reads symbol by symbol, skipping the dashes. */
  lemma ParseSixStrings(t: string)
    requires |t| == 11
    ensures ParseTab(t) == [TabSymbol(t[0]), TabSymbol(t[2]), TabSymbol(t[4]),
                            TabSymbol(t[6]), TabSymbol(t[8]), TabSymbol(t[10])]
  {
    assert ParseTab(t[10..]) == [TabSymbol(t[10])];
    assert t[8..][2..] == t[10..];
    assert ParseTab(t[8..]) == [TabSymbol(t[8])] + ParseTab(t[10..]);
    assert t[6..][2..] == t[8..];
    assert ParseTab(t[6..]) == [TabSymbol(t[6])] + ParseTab(t[8..]);
    assert t[4..][2..] == t[6..];
    assert ParseTab(t[4..]) == [TabSymbol(t[4])] + ParseTab(t[6..]);
    assert t[2..][2..] == t[4..];
    assert ParseTab(t[2..]) == [TabSymbol(t[2])] + ParseTab(t[4..]);
  }

  lemma FretsOfSix(ps: seq<FingerPosition>)
    requires |ps| == 6
    ensures Frets(ps) == [ps[0].fret, ps[1].fret, ps[2].fret, ps[3].fret, ps[4].fret, ps[5].fret]
  {
    assert ps[5..][1..] == [];
    assert Frets(ps[5..]) == [ps[5].fret];
    assert ps[4..][1..] == ps[5..];
    assert Frets(ps[4..]) == [ps[4].fret] + Frets(ps[5..]);
    assert ps[3..][1..] == ps[4..];
    assert Frets(ps[3..]) == [ps[3].fret] + Frets(ps[4..]);
    assert ps[2..][1..] == ps[3..];
    assert Frets(ps[2..]) == [ps[2].fret] + Frets(ps[3..]);
    assert ps[1..][1..] == ps[2..];
    assert Frets(ps[1..]) == [ps[1].fret] + Frets(ps[2..]);
  }

  /** The fingering agrees with the tab written above it. */
  lemma ChordMatchesTab(c: Chord)
    ensures Frets(FingerPositions(c)) == ParseTab(TabComment(c))
  {
    ParseSixStrings(TabComment(c));
    FretsOfSix(FingerPositions(c));
  }

  lemma RequiredCountOfSix(ps: seq<FingerPosition>)
    requires |ps| == 6
    ensures RequiredCount(ps) == (if ps[0].finger > 0 then 1 else 0) + (if ps[1].finger > 0 then 1 else 0)
                               + (if ps[2].finger > 0 then 1 else 0) + (if ps[3].finger > 0 then 1 else 0)
                               + (if ps[4].finger > 0 then 1 else 0) + (if ps[5].finger > 0 then 1 else 0)
  {
    assert ps[..1][..0] == [];
    assert RequiredCount(ps[..1]) == (if ps[0].finger > 0 then 1 else 0);
    assert ps[..2][..1] == ps[..1];
    assert RequiredCount(ps[..2]) == RequiredCount(ps[..1]) + (if ps[1].finger > 0 then 1 else 0);
    assert ps[..3][..2] == ps[..2];
    assert RequiredCount(ps[..3]) == RequiredCount(ps[..2]) + (if ps[2].finger > 0 then 1 else 0);
    assert ps[..4][..3] == ps[..3];
    assert RequiredCount(ps[..4]) == RequiredCount(ps[..3]) + (if ps[3].finger > 0 then 1 else 0);
    assert ps[..5][..4] == ps[..4];
    assert RequiredCount(ps[..5]) == RequiredCount(ps[..4]) + (if ps[4].finger > 0 then 1 else 0);
    assert ps[..5] == ps[..|ps| - 1];
  }

  /** Every chord needs fingers: two for Em, three for every other chord. */
  lemma ChordRequiredCount(c: Chord)
    ensures RequiredCount(FingerPositions(c)) == (if c == Em then 2 else 3)
  {
    RequiredCountOfSix(FingerPositions(c));
  }

  /** The eight cases are all listed once and their raw values differ. */
  lemma RawValuesDistinct()
    ensures |AllChords| == 8
    ensures forall c: Chord :: c in AllChords
    ensures forall i, j :: 0 <= i < j < |AllChords| ==> RawValue(AllChords[i]) != RawValue(AllChords[j])
  {
    forall c: Chord ensures c in AllChords {
      match c
      case C => assert AllChords[0] == c;
      case D => assert AllChords[1] == c;
      case E => assert AllChords[2] == c;
      case G => assert AllChords[3] == c;
      case A => assert AllChords[4] == c;
      case Am => assert AllChords[5] == c;
      case Em => assert AllChords[6] == c;
      case Dm => assert AllChords[7] == c;
    }
  }
}
