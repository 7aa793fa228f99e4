/**
 * The numeric part of the degrees-minutes and degrees-minutes-seconds
 * renderings of a latitude or longitude (convertToDegreesMinutes and
 * convertToDegreesMinutesSeconds). Values are exact reals; the text the
 * view prints from these numbers is not modelled.
 */
module LocationFormat {
  import opened JavaLang

  function Abs(v: real): real
  {
    if v < 0.0 then -v else v
  }

  /** Whole degrees, with the sign, and unsigned decimal minutes. */
  datatype DegreesMinutes = DegreesMinutes(degrees: int, minutes: real)

  /** Whole degrees, with the sign, whole minutes and decimal seconds. */
  datatype DegreesMinutesSeconds = DegreesMinutesSeconds(degrees: int, minutes: int, seconds: real)

  /** convertToDegreesMinutes: degrees truncated toward zero, minutes the
      magnitude of the remainder times 60. */
  function ConvertToDegreesMinutes(value: real): (dm: DegreesMinutes)
    ensures 0.0 <= dm.minutes < 60.0
    ensures Abs(value) == Abs(dm.degrees as real) + dm.minutes / 60.0
    ensures 0.0 <= value ==> 0 <= dm.degrees && value < dm.degrees as real + 1.0
    ensures value < 0.0 ==> dm.degrees <= 0 && dm.degrees as real - 1.0 < value
    ensures value <= -1.0 ==> dm.degrees < 0
  {
    var degrees := Trunc(value);
    DegreesMinutes(degrees, Abs((value - degrees as real) * 60.0))
  }

  /** convertToDegreesMinutesSeconds: the minutes of the degrees-minutes form
      split into whole minutes and seconds. */
  function ConvertToDegreesMinutesSeconds(value: real): (dms: DegreesMinutesSeconds)
    ensures dms.degrees == ConvertToDegreesMinutes(value).degrees
    ensures 0 <= dms.minutes <= 59
    ensures 0.0 <= dms.seconds < 60.0
    ensures Abs(value) == Abs(dms.degrees as real) + dms.minutes as real / 60.0 + dms.seconds / 3600.0
  {
    var degrees := Trunc(value);
    var minutes := Abs((value - degrees as real) * 60.0);
    var intMinutes := Trunc(minutes);
    var seconds := (minutes - intMinutes as real) * 60.0;
    DegreesMinutesSeconds(degrees, intMinutes, seconds)
  }

  /** The value a reader takes from a degrees-minutes pair: the sign of the
      degrees applies to the minutes. */
  function ReadDegreesMinutes(dm: DegreesMinutes): real
  {
    if dm.degrees < 0 then dm.degrees as real - dm.minutes / 60.0
    else dm.degrees as real + dm.minutes / 60.0
  }

  /** Reading the pair back gives the value, except for values strictly
      between -1 and 0. */
  lemma DegreesMinutesReadBack(value: real)
    requires value <= -1.0 || 0.0 <= value
    ensures ReadDegreesMinutes(ConvertToDegreesMinutes(value)) == value
  {
  }

  /** -23.5 gives -23 degrees and 30 minutes, and 0 seconds. */
  lemma NegativeValueExample()
    ensures ConvertToDegreesMinutes(-23.5) == DegreesMinutes(-23, 30.0)
    ensures ConvertToDegreesMinutesSeconds(-23.5) == DegreesMinutesSeconds(-23, 30, 0.0)
  {
    assert Trunc(-23.5) == -23;
    assert Trunc(30.0) == 30;
  }

  /** -0.5 and 0.5 give the same degrees and minutes: a value between -1 and 0
      loses its sign, because the whole degrees are 0. */
  lemma DegreesMinutesLosesSign()
    ensures ConvertToDegreesMinutes(-0.5) == ConvertToDegreesMinutes(0.5) == DegreesMinutes(0, 30.0)
    ensures ReadDegreesMinutes(ConvertToDegreesMinutes(-0.5)) == 0.5
  {
    assert Trunc(-0.5) == 0;
    assert Trunc(0.5) == 0;
  }

  /** Degrees and minutes with the hemisphere carried by its own sign flag. */
  datatype SignedDegreesMinutes = SignedDegreesMinutes(negative: bool, degrees: nat, minutes: real)

  /** The decomposition with the sign kept apart from the whole degrees. */
  function ToSignedDegreesMinutes(value: real): (s: SignedDegreesMinutes)
    ensures 0.0 <= s.minutes < 60.0
    ensures s.negative <==> value < 0.0
    ensures s.degrees == ConvertToDegreesMinutes(Abs(value)).degrees
  {
    var dm := ConvertToDegreesMinutes(Abs(value));
    SignedDegreesMinutes(value < 0.0, dm.degrees, dm.minutes)
  }

  function ReadSignedDegreesMinutes(s: SignedDegreesMinutes): real
  {
    var magnitude := s.degrees as real + s.minutes / 60.0;
    if s.negative then -magnitude else magnitude
  }

  /** Every value reads back from its signed decomposition, so distinct
      values never share one. */
  lemma SignedDegreesMinutesReadBack(value: real)
    ensures ReadSignedDegreesMinutes(ToSignedDegreesMinutes(value)) == value
  {
    var dm := ConvertToDegreesMinutes(Abs(value));
    assert Abs(Abs(value)) == Abs(value);
  }
}
