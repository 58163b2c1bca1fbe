/**
 The field sampler `field_positions_for_simcado_psf`: the origin, then, ring
 by ring, one point at every angle 0, theta, 2 * theta, ... below 360 degrees.
 Angles are whole degrees; cos and sin are the caller's (they take degrees),
 so the point at radius r and angle a is (r * cos(a), r * sin(a)).
 */
module FieldSampler {
  import opened Wrappers
  import opened NumpyRanges
  import opened Sweeps

  /** A field position, in arcsec from the centre of the field. */
  datatype Point = Point(x: real, y: real)

  const Origin := Point(0.0, 0.0)

  /** The radii used when the caller passes `radii=None`. */
  const DefaultRadii: seq<real> := [1.0, 2.0, 4.0, 8.0, 16.0, 32.0]

  /** The default angular spacing, in degrees. */
  const DefaultTheta := 45

  function RadiiOrDefault(radii: Option<seq<real>>): seq<real>
  {
    match radii
    case None => DefaultRadii
    case Some(rs) => rs
  }

  /** The sample on the circle of radius r at angle a (degrees). */
  function Polar(cos: int -> real, sin: int -> real): (real, int) -> Point
  {
    (r: real, a: int) => Point(r * cos(a), r * sin(a))
  }

  /** The samples in order: the origin, then one ring of np.arange(0, 360, theta)
      angles per radius. The angle range is only built when there is a radius,
      so a zero theta fails only then. */
  function FieldPositionsOf(radii: Option<seq<real>>, theta: int, cos: int -> real, sin: int -> real)
    : (r: Result<seq<Point>, RangeError>)
    ensures r.Failure? <==> theta == 0 && RadiiOrDefault(radii) != []
    ensures r.Success? ==> r.value != [] && r.value[0] == Origin
  {
    var rs := RadiiOrDefault(radii);
    if rs == [] then Success([Origin])
    else
      match Arange(0, 360, theta)
      case Failure(e) => Failure(e)
      case Success(angles) => Success([Origin] + Sweep(rs, angles, Polar(cos, sin)))
  }

  /** `field_positions_for_simcado_psf(radii, theta)`: grows the list of
      samples ring by ring and angle by angle. */
  method FieldPositions(radii: Option<seq<real>>, theta: int, cos: int -> real, sin: int -> real)
    returns (res: Result<seq<Point>, RangeError>)
    ensures res == FieldPositionsOf(radii, theta, cos, sin)
  {
    var coords := [Origin];
    var rs := RadiiOrDefault(radii);
    var polar := Polar(cos, sin);
    ghost var ring := if theta != 0 then Arange(0, 360, theta).value else [];
    for i := 0 to |rs|
      invariant i > 0 ==> theta != 0
      invariant coords == [Origin] + Sweep(rs[..i], ring, polar)
    {
      var r := rs[i];
      var range := Arange(0, 360, theta);
      if range.Failure? {
        return Failure(range.error);
      }
      var angles := range.value;
      ghost var before := coords;
      for k := 0 to |angles|
        invariant coords == before + Row(r, angles[..k], polar)
      {
        coords := coords + [polar(r, angles[k])];
        RowPrefixStep(r, angles, k, polar);
      }
      assert angles[..|angles|] == angles;
      SweepPrefixStep(rs, i, ring, polar);
    }
    assert rs[..|rs|] == rs;
    return Success(coords);
  }

  /** The number of angles per ring: ceil(360 / theta). */
  function AnglesPerRing(theta: int): nat
    requires theta > 0
  {
    CeilDiv(360, theta)
  }

  /** With a positive theta the result has 1 + |radii| * ceil(360 / theta)
      entries, the origin first. */
  lemma FieldPositionsLength(radii: Option<seq<real>>, theta: int, cos: int -> real, sin: int -> real)
    requires theta > 0
    ensures FieldPositionsOf(radii, theta, cos, sin).Success?
    ensures |FieldPositionsOf(radii, theta, cos, sin).value| == 1 + |RadiiOrDefault(radii)| * AnglesPerRing(theta)
  {
    var rs := RadiiOrDefault(radii);
    var angles := Arange(0, 360, theta).value;
    SweepLength(rs, angles, Polar(cos, sin));
  }

  /** Entry 1 + ri * n + k, n = ceil(360 / theta), is the point of ring ri at
      angle k * theta, and that angle lies in [0, 360). */
  lemma FieldPositionAt(radii: Option<seq<real>>, theta: int, cos: int -> real, sin: int -> real, ri: nat, k: nat)
    requires theta > 0
    requires ri < |RadiiOrDefault(radii)| && k < AnglesPerRing(theta)
    ensures FieldPositionsOf(radii, theta, cos, sin).Success?
    ensures 0 <= k * theta < 360
    ensures 1 + ri * AnglesPerRing(theta) + k < |FieldPositionsOf(radii, theta, cos, sin).value|
    ensures var rs := RadiiOrDefault(radii);
      FieldPositionsOf(radii, theta, cos, sin).value[1 + ri * AnglesPerRing(theta) + k]
        == Point(rs[ri] * cos(k * theta), rs[ri] * sin(k * theta))
  {
    var rs := RadiiOrDefault(radii);
    var angles := Arange(0, 360, theta).value;
    var polar := Polar(cos, sin);
    RingAngle(theta, k);
    SweepAt(rs, angles, polar, ri, k);
    var fp := [Origin] + Sweep(rs, angles, polar);
    assert FieldPositionsOf(radii, theta, cos, sin) == Success(fp);
    assert fp[1 + ri * |angles| + k] == polar(rs[ri], angles[k]);
  }

  /** Angle k of a ring is k * theta, below 360 degrees. */
  lemma RingAngle(theta: int, k: nat)
    requires theta > 0 && k < AnglesPerRing(theta)
    ensures |Arange(0, 360, theta).value| == AnglesPerRing(theta)
    ensures Arange(0, 360, theta).value[k] == k * theta
    ensures 0 <= k * theta < 360
  {
    ArangeBounds(0, 360, theta);
  }

  /** A negative theta gives an empty angle range, so only the origin is sampled. */
  lemma NegativeThetaOnlyOrigin(radii: Option<seq<real>>, theta: int, cos: int -> real, sin: int -> real)
    requires theta < 0
    ensures FieldPositionsOf(radii, theta, cos, sin) == Success([Origin])
  {
    var rs := RadiiOrDefault(radii);
    if rs != [] {
      var angles := Arange(0, 360, theta).value;
      ArangeBounds(0, 360, theta);
      SweepNoColumns(rs, Polar(cos, sin));
      assert [Origin] + Sweep(rs, angles, Polar(cos, sin)) == [Origin];
    }
  }

  /** No radii: exactly the origin, whatever theta is. */
  lemma NoRadiiOnlyOrigin(theta: int, cos: int -> real, sin: int -> real)
    ensures FieldPositionsOf(Some([]), theta, cos, sin) == Success([Origin])
  {
  }

  /** The defaults, radii [1, 2, 4, 8, 16, 32] and theta = 45, give one origin
      and six rings of eight points. */
  lemma DefaultLayout(cos: int -> real, sin: int -> real)
    ensures FieldPositionsOf(None, DefaultTheta, cos, sin) == FieldPositionsOf(Some([1.0, 2.0, 4.0, 8.0, 16.0, 32.0]), 45, cos, sin)
    ensures |FieldPositionsOf(None, DefaultTheta, cos, sin).value| == 49
  {
    FieldPositionsLength(None, DefaultTheta, cos, sin);
    assert AnglesPerRing(45) == 8;
  }

  /** One ring of radius 5 at 90-degree spacing: the origin and the four
      points on the axes, for a cos and sin exact at the quarter turns. */
  lemma QuarterTurnsExample(cos: int -> real, sin: int -> real)
    requires cos(0) == 1.0 && cos(90) == 0.0 && cos(180) == -1.0 && cos(270) == 0.0
    requires sin(0) == 0.0 && sin(90) == 1.0 && sin(180) == 0.0 && sin(270) == -1.0
    ensures FieldPositionsOf(Some([5.0]), 90, cos, sin)
      == Success([Origin, Point(5.0, 0.0), Point(0.0, 5.0), Point(-5.0, 0.0), Point(0.0, -5.0)])
  {
    var P := Polar(cos, sin);
    QuarterTurnAngles();
    QuarterTurnRing(cos, sin);
    assert [5.0][..0] == [];
    assert Sweep([5.0], [0, 90, 180, 270], P) == Row(5.0, [0, 90, 180, 270], P);
    assert FieldPositionsOf(Some([5.0]), 90, cos, sin) == Success([Origin] + Sweep([5.0], [0, 90, 180, 270], P));
    assert [Origin] + Row(5.0, [0, 90, 180, 270], P)
      == [Origin, Point(5.0, 0.0), Point(0.0, 5.0), Point(-5.0, 0.0), Point(0.0, -5.0)];
  }

  /** A ring every 90 degrees has the angles 0, 90, 180 and 270. */
  lemma QuarterTurnAngles()
    ensures Arange(0, 360, 90) == Success([0, 90, 180, 270])
  {
    ArangeBounds(0, 360, 90);
    assert |Arange(0, 360, 90).value| == 4;
    assert Arange(0, 360, 90).value == [0, 90, 180, 270];
  }

  /** The ring of radius 5 at those angles. */
  lemma QuarterTurnRing(cos: int -> real, sin: int -> real)
    requires cos(0) == 1.0 && cos(90) == 0.0 && cos(180) == -1.0 && cos(270) == 0.0
    requires sin(0) == 0.0 && sin(90) == 1.0 && sin(180) == 0.0 && sin(270) == -1.0
    ensures Row(5.0, [0, 90, 180, 270], Polar(cos, sin))
      == [Point(5.0, 0.0), Point(0.0, 5.0), Point(-5.0, 0.0), Point(0.0, -5.0)]
  {
  }
}
