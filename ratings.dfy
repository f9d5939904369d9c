/** The rating scale (the control-level enumeration) and the two helpers the
    service uses on it: membership of a raw name, and the ordinal comparison
    of two names. */
module Ratings {
  import opened Wrappers

  /** A Java String reference: None is null. */
  type JavaString = Option<string>

  /** The control levels, least restrictive first. */
  datatype Level = U | PG | A12 | A15 | A18

  /** The levels in declaration order, as the enumeration's values() lists them. */
  const Declared: seq<Level> := [U, PG, A12, A15, A18]

  /** The enumeration's ordinal: the position of a level in declaration order. */
  function Ordinal(l: Level): (n: nat)
    ensures n < |Declared| && Declared[n] == l
  {
    match l
    case U => 0
    case PG => 1
    case A12 => 2
    case A15 => 3
    case A18 => 4
  }

  /** The constant's name, as toString() and name() give it: the key under
      which the valueOf directory finds that constant. */
  function Name(l: Level): (r: string)
    ensures r in Directory && Directory[r] == l
  {
    match l
    case U => "U"
    case PG => "PG"
    case A12 => "A12"
    case A15 => "A15"
    case A18 => "A18"
  }

  /** The two ways Enum.valueOf rejects its argument: a null name
      (NullPointerException) and a name no constant has
      (IllegalArgumentException). */
  datatype ValueOfError = NullName | NoSuchConstant(name: string)

  /** The name-to-constant directory that Enum.valueOf consults. */
  const Directory: map<string, Level> :=
    map["U" := U, "PG" := PG, "A12" := A12, "A15" := A15, "A18" := A18]

  /** Enum.valueOf on the control-level enumeration: the constant whose name
      is exactly the given string, or the exception Java throws. */
  function ValueOf(s: JavaString): (r: Result<Level, ValueOfError>)
    ensures s.None? ==> r == Failure(NullName)
    ensures r.Success? ==> s == Some(Name(r.value))
    ensures s.Some? && r.Failure? ==>
              r.error == NoSuchConstant(s.value) && forall l :: Name(l) != s.value
  {
    match s
    case None => Failure(NullName)
    case Some(name) =>
      if name in Directory then Success(Directory[name]) else Failure(NoSuchConstant(name))
  }

  /** Utils.existsControlLevel: EnumUtils.isValidEnum, which is false on null
      and on every name Enum.valueOf rejects. */
  function ExistsControlLevel(s: JavaString): (b: bool)
    ensures b <==> exists l :: s == Some(Name(l))
  {
    ValueOf(s).Success?
  }

  /** Utils.levelMatch: converts both names to constants and compares their
      ordinals, the level's against the limit's. The level is converted
      first, so its exception wins over the limit's. */
  function LevelMatch(level: JavaString, limit: JavaString): (r: Result<bool, ValueOfError>)
    ensures r.Success? <==> ExistsControlLevel(level) && ExistsControlLevel(limit)
    ensures !ExistsControlLevel(level) ==> r == Failure(ValueOf(level).error)
    ensures ExistsControlLevel(level) && !ExistsControlLevel(limit) ==>
              r == Failure(ValueOf(limit).error)
  {
    var a :- ValueOf(level);
    var b :- ValueOf(limit);
    Success(Ordinal(a) <= Ordinal(b))
  }

  /** The level order itself: a is no more restrictive than b, that is, a is
      declared no later than b. */
  function AtMost(a: Level, b: Level): (r: bool)
    ensures r <==> a in Declared[..Ordinal(b) + 1]
  {
    Ordinal(a) <= Ordinal(b)
  }

  // ----- The scale -----

  /** Declaration order is strictly increasing in ordinal, every level is
      declared, and no level is declared twice. */
  lemma DeclarationOrder()
    ensures |Declared| == 5
    ensures forall i, j :: 0 <= i < j < |Declared| ==> Ordinal(Declared[i]) < Ordinal(Declared[j])
    ensures forall l :: l in Declared
    ensures forall i, j :: 0 <= i < j < |Declared| ==> Declared[i] != Declared[j]
  {
    forall l ensures l in Declared {
      assert Declared[Ordinal(l)] == l;
    }
  }

  /** Ordinals identify levels. */
  lemma OrdinalInjective(a: Level, b: Level)
    ensures Ordinal(a) == Ordinal(b) <==> a == b
  {
  }

  /** AtMost is a total order on levels. */
  lemma AtMostTotalOrder()
    ensures forall a :: AtMost(a, a)
    ensures forall a, b :: AtMost(a, b) && AtMost(b, a) ==> a == b
    ensures forall a, b, c :: AtMost(a, b) && AtMost(b, c) ==> AtMost(a, c)
    ensures forall a, b :: AtMost(a, b) || AtMost(b, a)
  {
  }

  // ----- Names -----

  /** valueOf(name()) gives the constant back. */
  lemma NameRoundTrip(l: Level)
    ensures ValueOf(Some(Name(l))) == Success(l)
  {
  }

  /** The valid names are exactly the five constant names, compared exactly. */
  lemma ValidNames(s: JavaString)
    ensures ExistsControlLevel(s) <==> s.Some? && s.value in {"U", "PG", "A12", "A15", "A18"}
  {
  }

  /** Null, the empty string, unknown names and a lower-case name are all
      rejected. */
  lemma RejectedNames()
    ensures !ExistsControlLevel(None)
    ensures !ExistsControlLevel(Some(""))
    ensures !ExistsControlLevel(Some("A16"))
    ensures !ExistsControlLevel(Some("A17"))
    ensures !ExistsControlLevel(Some("u"))
  {
  }

  /** ASCII lower-casing, used only to state case sensitivity. */
  function LowerCase(s: string): (r: string)
    ensures |r| == |s|
  {
    if s == [] then []
    else [if 'A' <= s[0] <= 'Z' then (s[0] as int + 32) as char else s[0]] + LowerCase(s[1..])
  }

  /** Membership is case-sensitive: a string that differs from a valid name
      only in letter case is not valid. */
  lemma CaseVariantsRejected(s: string, t: string)
    requires ExistsControlLevel(Some(s))
    requires LowerCase(t) == LowerCase(s) && t != s
    ensures !ExistsControlLevel(Some(t))
  {
    var l := ValueOf(Some(s)).value;
    if ExistsControlLevel(Some(t)) {
      var m := ValueOf(Some(t)).value;
      LowerCaseNames(l);
      LowerCaseNames(m);
      assert false;
    }
  }

  /** The lower-cased constant names, which are pairwise distinct. */
  lemma LowerCaseNames(l: Level)
    ensures LowerCase(Name(l)) == match l
      case U => "u" case PG => "pg" case A12 => "a12" case A15 => "a15" case A18 => "a18"
  {
    var n := Name(l);
    assert LowerCase(n[|n|..]) == [];
    if |n| == 3 {
      assert LowerCase(n[2..]) == LowerCase(n[2..3]);
    }
  }

  // ----- levelMatch -----

  /** On two valid names, levelMatch compares their ordinals. */
  lemma LevelMatchOnNames(a: Level, b: Level)
    ensures LevelMatch(Some(Name(a)), Some(Name(b))) == Success(AtMost(a, b))
  {
  }

  /** levelMatch is reflexive on valid names. */
  lemma LevelMatchReflexive(s: JavaString)
    requires ExistsControlLevel(s)
    ensures LevelMatch(s, s) == Success(true)
  {
  }

  /** levelMatch is total on valid names. */
  lemma LevelMatchTotal(s: JavaString, t: JavaString)
    requires ExistsControlLevel(s) && ExistsControlLevel(t)
    ensures LevelMatch(s, t) == Success(true) || LevelMatch(t, s) == Success(true)
  {
  }

  /** levelMatch is antisymmetric: two names that match each other are equal. */
  lemma LevelMatchAntisymmetric(s: JavaString, t: JavaString)
    requires LevelMatch(s, t) == Success(true) && LevelMatch(t, s) == Success(true)
    ensures s == t
  {
  }

  /** levelMatch is transitive. */
  lemma LevelMatchTransitive(s: JavaString, t: JavaString, v: JavaString)
    requires LevelMatch(s, t) == Success(true) && LevelMatch(t, v) == Success(true)
    ensures LevelMatch(s, v) == Success(true)
  {
  }
}
