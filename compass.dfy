/**
 * The fixed compass domain of the wind rose: the 16 directions in canonical
 * clockwise order starting at north, the label each one is written as, and
 * the ASCII upper-casing that row dimensions go through before they are
 * compared with those labels.
 */
module Compass {
  import opened Wrappers

  datatype Direction = N | NNE | NE | ENE | E | ESE | SE | SSE
                     | S | SSW | SW | WSW | W | WNW | NW | NNW

  /** The directions in the order that fixes each wedge's position. */
  const Directions: seq<Direction> :=
    [N, NNE, NE, ENE, E, ESE, SE, SSE, S, SSW, SW, WSW, W, WNW, NW, NNW]

  /** All 16 directions: the key set of every frequency table. */
  const AllDirections: set<Direction> :=
    {N, NNE, NE, ENE, E, ESE, SE, SSE, S, SSW, SW, WSW, W, WNW, NW, NNW}

  /** The label a direction is written as, which is also its table key. */
  function Name(d: Direction): string {
    match d
    case N => "N"     case NNE => "NNE"  case NE => "NE"  case ENE => "ENE"
    case E => "E"     case ESE => "ESE"  case SE => "SE"  case SSE => "SSE"
    case S => "S"     case SSW => "SSW"  case SW => "SW"  case WSW => "WSW"
    case W => "W"     case WNW => "WNW"  case NW => "NW"  case NNW => "NNW"
  }

  /** The direction a list holds under the label s, searching from the front. */
  function FindNamed(dirs: seq<Direction>, s: string): Option<Direction> {
    if dirs == [] then None
    else if Name(dirs[0]) == s then Some(dirs[0])
    else FindNamed(dirs[1..], s)
  }

  /** The direction whose label is exactly s, if there is one. */
  function Parse(s: string): Option<Direction> {
    FindNamed(Directions, s)
  }

  /** No two positions of a sequence hold the same element. */
  predicate Distinct<T(==)>(s: seq<T>) {
    forall i, j :: 0 <= i < j < |s| ==> s[i] != s[j]
  }

  /** The list has 16 entries, none repeated, and every direction is on it. */
  lemma DirectionsComplete(d: Direction)
    ensures |Directions| == 16
    ensures Distinct(Directions)
    ensures d in Directions
  {
  }

  /** A direction occupies one position of the list only. */
  lemma SamePosition(i: nat, j: nat)
    requires i < 16 && j < 16 && Directions[i] == Directions[j]
    ensures i == j
  {
    DirectionsComplete(N);
  }

  lemma {:induction false} DistinctCardinality<T>(s: seq<T>)
    requires Distinct(s)
    ensures |set x | x in s| == |s|
  {
    if s != [] {
      var rest := s[1..];
      assert Distinct(rest);
      DistinctCardinality(rest);
      assert (set x | x in s) == (set x | x in rest) + {s[0]};
      assert s[0] !in rest;
    }
  }

  /** Every direction is a key and is on the list. */
  lemma Listed(d: Direction)
    ensures d in AllDirections && d in Directions
  {
  }

  /** The key set is the set of the list, with exactly 16 members. */
  lemma AllDirectionsSize()
    ensures AllDirections == set x | x in Directions
    ensures |AllDirections| == 16
  {
    DirectionsComplete(N);
    DistinctCardinality(Directions);
    forall x ensures x in Directions { Listed(x); }
    assert AllDirections == set x | x in Directions;
  }

  /** Different directions are written differently. */
  lemma NameInjective(d1: Direction, d2: Direction)
    requires Name(d1) == Name(d2)
    ensures d1 == d2
  {
    assert Name(d1)[0] == Name(d2)[0];
    assert |Name(d1)| == |Name(d2)|;
    if |Name(d1)| > 1 {
      assert Name(d1)[1] == Name(d2)[1];
    }
    if |Name(d1)| > 2 {
      assert Name(d1)[2] == Name(d2)[2];
    }
  }

  lemma {:induction false} FindNamedSound(dirs: seq<Direction>, s: string)
    ensures FindNamed(dirs, s).Some? ==>
              Name(FindNamed(dirs, s).value) == s && FindNamed(dirs, s).value in dirs
    ensures FindNamed(dirs, s).None? <==> forall d :: d in dirs ==> Name(d) != s
  {
    if dirs != [] {
      FindNamedSound(dirs[1..], s);
      assert forall d :: d in dirs ==> d == dirs[0] || d in dirs[1..];
    }
  }

  /**
   * Parse is the inverse of Name: a label parses to its own direction, a
   * string that parses names the direction it gives, and a string that no
   * direction is written as parses to nothing.
   */
  lemma ParseName(s: string, d: Direction)
    ensures Parse(Name(d)) == Some(d)
    ensures Parse(s) == Some(d) ==> Name(d) == s
    ensures Parse(s).None? <==> forall d' :: Name(d') != s
  {
    FindNamedSound(Directions, s);
    FindNamedSound(Directions, Name(d));
    DirectionsComplete(d);
    var p := Parse(Name(d));
    assert p.Some?;
    NameInjective(p.value, d);
    forall d' ensures d' in Directions { DirectionsComplete(d'); }
  }

  predicate IsUpperLetter(c: char) {
    'A' <= c <= 'Z'
  }

  function UpperChar(c: char): char {
    if 'a' <= c <= 'z' then (c as int - 32) as char else c
  }

  function LowerChar(c: char): char {
    if 'A' <= c <= 'Z' then (c as int + 32) as char else c
  }

  /** ASCII upper-casing of a whole string, one character at a time. */
  function ToUpper(s: string): string {
    seq(|s|, i requires 0 <= i < |s| => UpperChar(s[i]))
  }

  /** Every label is spelt with upper-case letters only. */
  lemma NameUpper(d: Direction)
    ensures forall k :: 0 <= k < |Name(d)| ==> IsUpperLetter(Name(d)[k])
  {
  }

  lemma UpperCharMatch(c: char, u: char)
    requires IsUpperLetter(u)
    ensures UpperChar(c) == u <==> c == u || c == LowerChar(u)
  {
  }

  /**
   * Matching a dimension against a label after upper-casing is exact,
   * case-insensitive comparison: the strings have the same length and each
   * character is the label's letter in either case.
   */
  lemma MatchIgnoringCase(s: string, d: Direction)
    ensures ToUpper(s) == Name(d) <==>
              |s| == |Name(d)| &&
              forall k :: 0 <= k < |s| ==> s[k] == Name(d)[k] || s[k] == LowerChar(Name(d)[k])
  {
    NameUpper(d);
    var u := Name(d);
    if |s| == |u| {
      forall k | 0 <= k < |s|
        ensures ToUpper(s)[k] == u[k] <==> s[k] == u[k] || s[k] == LowerChar(u[k])
      {
        UpperCharMatch(s[k], u[k]);
      }
    }
  }

  /** "nne" and "nNe" both meet NNE. */
  lemma LowerCaseMatches(s: string)
    requires s == "nne" || s == "nNe"
    ensures Parse(ToUpper(s)) == Some(NNE)
  {
    var u := ToUpper(s);
    assert u[0] == 'N' && u[1] == 'N' && u[2] == 'E';
    assert u == Name(NNE);
    ParseName(u, NNE);
  }

  /** "North" upper-cases to "NORTH", which is no label: the row is dropped. */
  lemma FullWordDropped(s: string)
    requires s == "North"
    ensures Parse(ToUpper(s)) == None
  {
    var u := ToUpper(s);
    assert |u| == 5;
    forall d ensures Name(d) != u {
      assert |Name(d)| <= 3;
    }
    ParseName(u, N);
  }
}
