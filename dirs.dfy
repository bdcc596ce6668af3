/** Compass directions and a bitset of directions packed into one byte. */
module Dirs {

  /** A compass direction. Each value owns one flag bit (see Bit), so a set of
      directions fits in the low four bits of a byte. */
  datatype Dir = N | E | S | W

  /** A grid position or displacement. */
  datatype Point = Point(x: int, y: int)

  function Abs(a: int): (r: int)
    ensures r >= 0 && (r == a || r == -a)
  {
    if a < 0 then -a else a
  }

  /** The discriminant of a direction: N = 1, E = 2, S = 4, W = 8.
      Every discriminant is a single bit inside the low nibble. */
  function Bit(d: Dir): (b: bv8)
    ensures b != 0 && b & (b - 1) == 0
    ensures b & 0xF0 == 0
  {
    match d
    case N => 1
    case E => 2
    case S => 4
    case W => 8
  }

  /** Two directions share a flag bit exactly when they are the same direction. */
  lemma BitsDisjoint(d: Dir, e: Dir)
    ensures Bit(d) & Bit(e) == 0 <==> d != e
  {
  }

  /** Ninety degrees counter-clockwise. On the flags this is a one-bit right
      rotation of the low nibble. */
  function TurnLeft(d: Dir): (r: Dir)
    ensures Bit(r) == if Bit(d) == 1 then 8 else Bit(d) >> 1
  {
    match d
    case N => W
    case E => N
    case S => E
    case W => S
  }

  /** Ninety degrees clockwise. On the flags this is a one-bit left rotation
      of the low nibble. */
  function TurnRight(d: Dir): (r: Dir)
    ensures Bit(r) == if Bit(d) == 8 then 1 else Bit(d) << 1
  {
    match d
    case N => E
    case E => S
    case S => W
    case W => N
  }

  lemma TurnLeftUndoesTurnRight(d: Dir)
    ensures TurnLeft(TurnRight(d)) == d
  {
  }

  lemma TurnRightUndoesTurnLeft(d: Dir)
    ensures TurnRight(TurnLeft(d)) == d
  {
  }

  /** Four right turns make a full circle, and no fewer do. */
  lemma TurnRightCycle(d: Dir)
    ensures TurnRight(TurnRight(TurnRight(TurnRight(d)))) == d
    ensures TurnRight(d) != d && TurnRight(TurnRight(d)) != d
    ensures TurnRight(TurnRight(TurnRight(d))) == TurnLeft(d)
  {
  }

  /** The unit step one cell in direction d, on a grid whose y axis points down. */
  function Diff(d: Dir): (p: Point)
    ensures (p.x == 0) != (p.y == 0)
    ensures Abs(p.x) + Abs(p.y) == 1
    ensures p.x == 0 <==> d == N || d == S
    ensures d == N ==> p.y < 0
  {
    match d
    case N => Point(0, -1)
    case E => Point(1, 0)
    case S => Point(0, 1)
    case W => Point(-1, 0)
  }

  /** Turning right rotates the step vector clockwise, which with y pointing
      down is (x, y) to (-y, x); two right turns reverse it. */
  lemma DiffTurnRight(d: Dir)
    ensures Diff(TurnRight(d)) == Point(-Diff(d).y, Diff(d).x)
    ensures Diff(TurnRight(TurnRight(d))) == Point(-Diff(d).x, -Diff(d).y)
  {
  }

  /** Flags strictly increase along s. */
  ghost predicate Ascending(s: seq<Dir>)
  {
    forall i, j :: 0 <= i < j < |s| ==> Bit(s[i]) < Bit(s[j])
  }

  /** Dropping the head of an ascending sequence drops exactly the smallest
      flag, and what is left is ascending. */
  lemma AscendingTail(s: seq<Dir>)
    requires |s| > 0
    ensures Ascending(s) ==> Ascending(s[1..])
    ensures Ascending(s) ==> forall d :: d in s[1..] ==> Bit(s[0]) < Bit(d)
    ensures Ascending(s) ==> forall d :: d in s[1..] <==> d in s && d != s[0]
  {
  }

  /** A sequence whose members all lie in an empty sequence is empty. */
  lemma MembersBound(s: seq<Dir>, t: seq<Dir>)
    requires forall d :: d in s ==> d in t
    ensures t == [] ==> s == []
  {
    if s != [] {
      assert s[0] in s;
    }
  }

  /** An ascending sequence is determined by its members: there is only one
      way to list a set of directions in flag order. */
  lemma {:induction false} AscendingUnique(a: seq<Dir>, b: seq<Dir>)
    requires Ascending(a) && Ascending(b)
    requires forall d :: d in a <==> d in b
    ensures a == b
    decreases |a|
  {
    if a == [] || b == [] {
      MembersBound(a, b);
      MembersBound(b, a);
    } else {
      AscendingTail(a);
      AscendingTail(b);
      assert a[0] in b && b[0] in a;
      AscendingUnique(a[1..], b[1..]);
      assert a == [a[0]] + a[1..] && b == [b[0]] + b[1..];
    }
  }

  lemma EveryDirListed()
    ensures forall d :: d in [N, E, S, W]
  {
    forall d: Dir
      ensures d in [N, E, S, W]
    {
      match d
      case N => assert [N, E, S, W][0] == d;
      case E => assert [N, E, S, W][1] == d;
      case S => assert [N, E, S, W][2] == d;
      case W => assert [N, E, S, W][3] == d;
    }
  }

  /** The canonical order: every direction once, starting at N and turning
      clockwise, which is also ascending flag order. */
  function All(): (r: seq<Dir>)
    ensures |r| == 4 && forall d :: d in r
    ensures r[0] == N && forall i :: 0 <= i < 3 ==> r[i + 1] == TurnRight(r[i])
    ensures Ascending(r)
  {
    EveryDirListed();
    [N, E, S, W]
  }

  /** A set of directions as a flag byte. Only the low four bits are ever set. */
  class DirSet {
    var bits: bv8

    ghost predicate Valid()
      reads this
    {
      bits & 0xF0 == 0
    }

    /** The empty set. */
    constructor ()
      ensures Valid() && bits == 0
      ensures forall d :: !Contains(d)
    {
      bits := 0;
    }

    /** Membership: the direction's whole flag bit is set in the byte. */
    function Contains(d: Dir): (r: bool)
      reads this
      ensures r <==> bits & Bit(d) == Bit(d)
    {
      bits & Bit(d) != 0
    }

    /** Adds d; the result says whether the set changed. */
    method Insert(d: Dir) returns (changed: bool)
      requires Valid()
      modifies this
      ensures Valid()
      ensures changed == !old(Contains(d))
      ensures Contains(d)
      ensures forall e :: e != d ==> Contains(e) == old(Contains(e))
    {
      var before := bits;
      bits := bits | Bit(d);
      changed := bits != before;
    }

    /** Removes d; the result says whether d was present. */
    method Remove(d: Dir) returns (present: bool)
      requires Valid()
      modifies this
      ensures Valid()
      ensures present == old(Contains(d))
      ensures !Contains(d)
      ensures forall e :: e != d ==> Contains(e) == old(Contains(e))
    {
      var before := bits;
      bits := bits & !Bit(d);
      present := bits != before;
    }

    function IsEmpty(): (r: bool)
      reads this
      requires Valid()
      ensures r <==> forall d :: !Contains(d)
    {
      assert (forall d :: !Contains(d)) ==> !Contains(N) && !Contains(E) && !Contains(S) && !Contains(W);
      bits == 0
    }

    /** The members of the set among s, in the order of s. */
    function Keep(s: seq<Dir>): (r: seq<Dir>)
      reads this
      ensures forall d :: d in r <==> d in s && Contains(d)
      ensures Ascending(s) ==> Ascending(r)
      ensures |r| <= |s|
    {
      if s == [] then []
      else
        var rest := Keep(s[1..]);
        AscendingTail(s);
        if Contains(s[0]) then [s[0]] + rest else rest
    }

    /** Iteration: every member exactly once, in the canonical order of All. */
    function Elements(): (r: seq<Dir>)
      reads this
      ensures forall d :: d in r <==> Contains(d)
      ensures Ascending(r)
    {
      Keep(All())
    }
  }

  /** Inserting twice, removing twice, and iterating {N, S}. */
  method InsertRemoveScenario()
  {
    var s := new DirSet();
    assert s.IsEmpty();
    var c1 := s.Insert(N);
    var c2 := s.Insert(N);
    assert c1 && !c2;
    var c3 := s.Insert(S);
    assert c3;
    assert Ascending([N, S]);
    AscendingUnique(s.Elements(), [N, S]);
    var p1 := s.Remove(N);
    var p2 := s.Remove(N);
    assert p1 && !p2;
    assert s.Contains(S) && !s.Contains(N) && !s.IsEmpty();
  }
}
