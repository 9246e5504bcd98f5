/** Bloodsome drive selection (js/games/bloodsome.js): each team of two
    alternates who tees off, so the driver of every hole defaults by parity:
    player A (team 1) or C (team 2) on odd holes, B or D on even holes. The
    form keeps one drive select per team and hole; its values live in two
    18-slot arrays, and NoDriver is the select's empty option. */
module Bloodsome {
  import opened Golf

  datatype Team = Team1 | Team2

  /** The two players of a team, first the one who drives the odd holes. */
  function OddDriver(team: Team): Driver { if team == Team1 then PA else PC }
  function EvenDriver(team: Team): Driver { if team == Team1 then PB else PD }

  /** A player of the given team (what the team's select may hold besides empty). */
  predicate Member(team: Team, d: Driver)
  {
    d == OddDriver(team) || d == EvenDriver(team)
  }

  /** The suggested driver of hole `hole` (1-based): the team's first player on
      odd holes, its second on even ones. */
  function HoleDefault(team: Team, hole: nat): (d: Driver)
    ensures Member(team, d) && d != NoDriver
    ensures hole % 2 == 1 <==> d == OddDriver(team)
  {
    if hole % 2 == 1 then OddDriver(team) else EvenDriver(team)
  }

  /** The teammates alternate: consecutive holes never suggest the same driver,
      and holes two apart always do. */
  lemma DefaultsAlternate(team: Team, hole: nat)
    ensures HoleDefault(team, hole) != HoleDefault(team, hole + 1)
    ensures HoleDefault(team, hole) == HoleDefault(team, hole + 2)
  {
  }

  /** Over a full round each teammate is suggested on nine holes. */
  function DefaultCount(team: Team, d: Driver, n: nat): nat
  {
    if n == 0 then 0 else DefaultCount(team, d, n - 1) + (if HoleDefault(team, n) == d then 1 else 0)
  }

  lemma {:induction false} DefaultsShared(team: Team, n: nat)
    ensures DefaultCount(team, OddDriver(team), 2 * n) == n
    ensures DefaultCount(team, EvenDriver(team), 2 * n) == n
  {
    if n > 0 {
      DefaultsShared(team, n - 1);
      assert HoleDefault(team, 2 * n - 1) == OddDriver(team);
      assert HoleDefault(team, 2 * n) == EvenDriver(team);
    }
  }

  /** The slot of hole index i (hole i + 1) after initialisation: an empty
      select gets the parity default, a chosen driver stays. */
  function FillSlot(team: Team, current: Driver, i: nat): (d: Driver)
    ensures d != NoDriver
    ensures current != NoDriver ==> d == current
    ensures current == NoDriver ==> d == HoleDefault(team, i + 1)
  {
    if current == NoDriver then HoleDefault(team, i + 1) else current
  }

  /** The row initialisation leaves: every slot filled by FillSlot. */
  function Filled(team: Team, slots: seq<Driver>): (r: seq<Driver>)
    ensures |r| == |slots|
    ensures forall i :: 0 <= i < |slots| ==> r[i] == FillSlot(team, slots[i], i)
  {
    seq(|slots|, i requires 0 <= i < |slots| => FillSlot(team, slots[i], i))
  }

  /** The row reset leaves: every slot at its parity default. */
  function Defaults(team: Team): (r: seq<Driver>)
    ensures |r| == Holes
    ensures forall i :: 0 <= i < Holes ==> r[i] == HoleDefault(team, i + 1)
  {
    seq(Holes, i requires 0 <= i < Holes => HoleDefault(team, i + 1))
  }

  /** Initialising twice is initialising once: a filled row has no empty slot. */
  lemma FilledIdempotent(team: Team, slots: seq<Driver>)
    ensures Filled(team, Filled(team, slots)) == Filled(team, slots)
    ensures forall i :: 0 <= i < |slots| ==> Filled(team, slots)[i] != NoDriver
  {
  }

  /** Initialising an untouched form gives exactly the reset row. */
  lemma FilledEmptyIsDefaults(team: Team, slots: seq<Driver>)
    requires |slots| == Holes && forall i :: 0 <= i < Holes ==> slots[i] == NoDriver
    ensures Filled(team, slots) == Defaults(team)
  {
  }

  /** The stored drive of hole index i, as `drives?.t1[i]` reads it: missing
      (NoDriver) when the stored row is shorter. */
  function StoredDrive(stored: seq<Driver>, i: nat): (d: Driver)
    ensures i < |stored| ==> d == stored[i]
    ensures i >= |stored| ==> d == NoDriver
  {
    if i < |stored| then stored[i] else NoDriver
  }

  /** The value populate writes into the select of hole index i: the stored
      drive, or, when it is empty, `i % 2 === 0 ? pA : pB` (pC/pD for team 2). */
  function PopulateSlot(team: Team, stored: seq<Driver>, i: nat): Driver
  {
    var s := StoredDrive(stored, i);
    if s != NoDriver then s else if i % 2 == 0 then OddDriver(team) else EvenDriver(team)
  }

  /** Populate's index-parity fallback is the hole-parity rule of initialisation:
      index i is hole i + 1, so an even index is an odd hole. Populating from a
      stored row is initialising a form that holds it. */
  lemma PopulateIsFill(team: Team, stored: seq<Driver>, i: nat)
    ensures PopulateSlot(team, stored, i) == FillSlot(team, StoredDrive(stored, i), i)
    ensures StoredDrive(stored, i) == NoDriver ==> PopulateSlot(team, stored, i) == HoleDefault(team, i + 1)
  {
  }

  /** The populated row. */
  function Populated(team: Team, stored: seq<Driver>): (r: seq<Driver>)
    ensures |r| == Holes
  {
    seq(Holes, i requires 0 <= i < Holes => PopulateSlot(team, stored, i))
  }

  /** Reading a populated form back gives the stored row wherever it held a
      driver, and the defaults elsewhere; storing and populating again changes
      nothing. */
  lemma {:induction false} PopulateRoundTrip(team: Team, stored: seq<Driver>)
    ensures forall i :: 0 <= i < Holes && StoredDrive(stored, i) != NoDriver ==> Populated(team, stored)[i] == stored[i]
    ensures Populated(team, Populated(team, stored)) == Populated(team, stored)
    ensures (forall i :: 0 <= i < |stored| ==> stored[i] == NoDriver) ==> Populated(team, stored) == Defaults(team)
  {
    var p := Populated(team, stored);
    forall i | 0 <= i < Holes
      ensures Populated(team, p)[i] == p[i]
    {
      PopulateIsFill(team, stored, i);
    }
    if forall i :: 0 <= i < |stored| ==> stored[i] == NoDriver {
      forall i | 0 <= i < Holes
        ensures p[i] == Defaults(team)[i]
      {
        PopulateIsFill(team, stored, i);
      }
    }
  }

  /** Every slot holds a value the team's select offers: empty or one of the
      team's two players. */
  predicate Selectable(team: Team, row: seq<Driver>)
  {
    forall i :: 0 <= i < |row| ==> row[i] == NoDriver || Member(team, row[i])
  }

  /** The form's own writes keep each select on one of its options: the reset
      row always, initialisation from a selectable row, and populating from a
      stored row the form itself produced. */
  lemma {:induction false} SelectableKept(team: Team, slots: seq<Driver>, stored: seq<Driver>)
    ensures Selectable(team, Defaults(team))
    ensures Selectable(team, slots) ==> Selectable(team, Filled(team, slots))
    ensures Selectable(team, stored) ==> Selectable(team, Populated(team, stored))
  {
    if Selectable(team, stored) {
      forall i | 0 <= i < Holes
        ensures Populated(team, stored)[i] == NoDriver || Member(team, Populated(team, stored)[i])
      {
        PopulateIsFill(team, stored, i);
      }
    }
  }

  /** A drive read from the form: the select's value, or empty when there is
      no select (`?.value || ''`). */
  function ReadDrive(select: Option<Driver>): (d: Driver)
    ensures select.None? ==> d == NoDriver
    ensures select.Some? ==> d == select.value
  {
    if select.None? then NoDriver else select.value
  }

  /** The drive selects of the Bloodsome form, one array per team. */
  class DriveForm {
    var t1: array<Driver>
    var t2: array<Driver>

    ghost predicate Valid()
      reads this
    {
      t1.Length == Holes && t2.Length == Holes && t1 != t2
    }

    /** generateBloodsomeRows: every select starts on its empty option. */
    constructor ()
      ensures Valid() && fresh(t1) && fresh(t2)
      ensures forall i :: 0 <= i < Holes ==> t1[i] == NoDriver && t2[i] == NoDriver
    {
      t1 := new Driver[Holes](_ => NoDriver);
      t2 := new Driver[Holes](_ => NoDriver);
    }

    /** The auto-allocation loop of initializeBloodsome: only empty selects get
        the parity default. */
    method InitializeDefaults()
      requires Valid()
      modifies t1, t2
      ensures Valid()
      ensures t1[..] == Filled(Team1, old(t1[..])) && t2[..] == Filled(Team2, old(t2[..]))
    {
      for i := 0 to Holes
        invariant forall k :: 0 <= k < i ==> t1[k] == FillSlot(Team1, old(t1[k]), k) && t2[k] == FillSlot(Team2, old(t2[k]), k)
        invariant forall k :: i <= k < Holes ==> t1[k] == old(t1[k]) && t2[k] == old(t2[k])
      {
        var isOdd := (i + 1) % 2 == 1;
        if t1[i] == NoDriver {
          t1[i] := if isOdd then PA else PB;
        }
        if t2[i] == NoDriver {
          t2[i] := if isOdd then PC else PD;
        }
      }
    }

    /** The driver loop of resetBloodsomeDisplay: every select is set to its
        parity default, whatever it held. */
    method ResetDefaults()
      requires Valid()
      modifies t1, t2
      ensures Valid()
      ensures t1[..] == Defaults(Team1) && t2[..] == Defaults(Team2)
    {
      for i := 0 to Holes
        invariant forall k :: 0 <= k < i ==> t1[k] == HoleDefault(Team1, k + 1) && t2[k] == HoleDefault(Team2, k + 1)
      {
        var isOdd := (i + 1) % 2 == 1;
        t1[i] := if isOdd then PA else PB;
        t2[i] := if isOdd then PC else PD;
      }
    }

    /** The drive part of populateBloodsome: the stored drive, or the index
        parity fallback when it is empty. */
    method Populate(stored1: seq<Driver>, stored2: seq<Driver>)
      requires Valid()
      modifies t1, t2
      ensures Valid()
      ensures t1[..] == Populated(Team1, stored1) && t2[..] == Populated(Team2, stored2)
    {
      for i := 0 to Holes
        invariant forall k :: 0 <= k < i ==> t1[k] == PopulateSlot(Team1, stored1, k) && t2[k] == PopulateSlot(Team2, stored2, k)
      {
        var s1 := if i < |stored1| then stored1[i] else NoDriver;
        var s2 := if i < |stored2| then stored2[i] else NoDriver;
        t1[i] := if s1 != NoDriver then s1 else if i % 2 == 0 then PA else PB;
        t2[i] := if s2 != NoDriver then s2 else if i % 2 == 0 then PC else PD;
      }
    }

    /** The drive part of updateBloodsome's read loop: the two rows as they
        stand in the form. */
    method ReadDrives() returns (d1: seq<Driver>, d2: seq<Driver>)
      requires Valid()
      ensures d1 == t1[..] && d2 == t2[..]
    {
      d1, d2 := [], [];
      for i := 0 to Holes
        invariant d1 == t1[..i] && d2 == t2[..i]
      {
        d1 := d1 + [ReadDrive(Some(t1[i]))];
        d2 := d2 + [ReadDrive(Some(t2[i]))];
      }
    }
  }
}
