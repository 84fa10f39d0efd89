/** Regions on the globe (`Region`, `RectRegion`): bounding-box containment,
    centres, representative points and the minimum-over-representatives
    distance. Angles are radians. The distance between two coordinates is
    great-circle trigonometry that is not part of this model: every distance
    below takes it as a parameter `cd`. */
module Geometry {
  import opened Folds

  /** `Math.PI`. */
  const Pi: real := 3.141592653589793

  /** The factor `distanceInKm` turns a radian distance into kilometres with. */
  const EarthRadiusKm: real := 6372.8

  datatype Coordinate = Coordinate(lat: real, lng: real)

  /** `Rect` is a `RectRegion`. `Points` stands for the other subclasses of
      `Region` (such as the point region of a single coordinate), whose code
      is not part of this model: they are given by their centre and their
      list of representative coordinates. */
  datatype Region =
    | Rect(minLat: real, maxLat: real, minLng: real, maxLng: real)
    | Points(center: Coordinate, reps: seq<Coordinate>)

  /** A region of one coordinate: centre and only representative. */
  function PointRegion(c: Coordinate): (r: Region)
    ensures Center(r) == c && Representatives(r) == [c]
  {
    Points(c, [c])
  }

  // ---------------------------------------------------------------------
  // RectRegion

  /** `RectRegion.fromDegrees`: each bound converted from degrees to radians. */
  function FromDegrees(minLat: real, maxLat: real, minLng: real, maxLng: real): (r: Region)
    ensures r.Rect?
    ensures minLat <= maxLat <==> r.minLat <= r.maxLat
    ensures minLng <= maxLng <==> r.minLng <= r.maxLng
  {
    Rect(minLat * Pi / 180.0, maxLat * Pi / 180.0, minLng * Pi / 180.0, maxLng * Pi / 180.0)
  }

  /** `RectRegion.fromCoordinates`: the box whose south-west corner is `sw`
      and whose north-east corner is `ne`. */
  function FromCoordinates(sw: Coordinate, ne: Coordinate): (r: Region)
    ensures r.Rect?
    ensures Representatives(r)[0] == sw && Representatives(r)[2] == ne
  {
    Rect(sw.lat, ne.lat, sw.lng, ne.lng)
  }

  /** `getCenter`: for a box, the coordinate halfway between its latitude
      bounds and halfway between its longitude bounds. */
  function Center(r: Region): (c: Coordinate)
    ensures r.Rect? ==> c.lat - r.minLat == r.maxLat - c.lat && c.lng - r.minLng == r.maxLng - c.lng
    ensures r.Rect? && r.minLat <= r.maxLat ==> r.minLat <= c.lat <= r.maxLat
    ensures r.Rect? && r.minLng <= r.maxLng ==> r.minLng <= c.lng <= r.maxLng
  {
    match r
    case Rect(minLat, maxLat, minLng, maxLng) => Coordinate((maxLat + minLat) / 2.0, (maxLng + minLng) / 2.0)
    case Points(center, _) => center
  }

  /** `getRepresentatives`: a box is represented by its four corners, in the
      order south-west, north-west, north-east, south-east. */
  function Representatives(r: Region): (reps: seq<Coordinate>)
    ensures r.Rect? ==> |reps| == 4
  {
    match r
    case Rect(minLat, maxLat, minLng, maxLng) =>
      [Coordinate(minLat, minLng), Coordinate(maxLat, minLng), Coordinate(maxLat, maxLng), Coordinate(minLat, maxLng)]
    case Points(_, reps) => reps
  }

  /** `RectRegion.setCenter`: does nothing. */
  function SetCenter(r: Region, c: Coordinate): (r': Region)
    requires r.Rect?
    ensures Center(r') == Center(r) && Representatives(r') == Representatives(r)
  {
    r
  }

  /** `RectRegion.setRepresentatives`: does nothing (besides a warning on
      standard error, which is not modelled). */
  function SetRepresentatives(r: Region, cs: seq<Coordinate>): (r': Region)
    requires r.Rect?
    ensures Center(r') == Center(r) && Representatives(r') == Representatives(r)
  {
    r
  }

  /** `containsRadians` exactly as the source writes it: for a box whose
      longitude bounds wrap past +-180 degrees it tests the interval
      [maxLng, PI] and the interval [-PI, minLng]. */
  predicate ContainsRadiansAsWritten(r: Region, lat: real, lng: real)
    requires r.Rect?
  {
    if !(lat >= r.minLat && lat <= r.maxLat) then false
    else if r.minLng <= r.maxLng then lng >= r.minLng && lng <= r.maxLng
    else (lng >= r.maxLng && lng <= Pi) || (lng >= -Pi && lng <= r.minLng)
  }

  /** As written, a wrapped box (minLng > maxLng) contains every longitude of
      [-PI, PI] within its latitude bounds, not only the ones it spans. */
  lemma AsWrittenWrappedBoxContainsEverything(r: Region, lat: real, lng: real)
    requires r.Rect? && r.minLng > r.maxLng
    requires r.minLat <= lat <= r.maxLat && -Pi <= lng <= Pi
    ensures ContainsRadiansAsWritten(r, lat, lng)
  {
  }

  /** A box from 170 to -170 degrees of longitude (20 degrees across the
      antimeridian) is reported, as written, to contain the Greenwich
      meridian, which lies outside it. */
  lemma AsWrittenContainsGreenwichInPacificBox()
    ensures var box := FromDegrees(-10.0, 10.0, 170.0, -170.0);
      && ContainsRadiansAsWritten(box, 0.0, 0.0) && !ContainsRadians(box, 0.0, 0.0)
      && Contains(box, Coordinate(0.0, 0.0)) && !ContainsIntended(box, Coordinate(0.0, 0.0))
  {
  }

  /** `containsRadians` as evidently intended: a latitude within the bounds
      and, for a box that wraps past +-180 degrees, a longitude in
      [minLng, PI] or in [-PI, maxLng]. */
  predicate ContainsRadians(r: Region, lat: real, lng: real)
    requires r.Rect?
  {
    if !(lat >= r.minLat && lat <= r.maxLat) then false
    else if r.minLng <= r.maxLng then lng >= r.minLng && lng <= r.maxLng
    else (lng >= r.minLng && lng <= Pi) || (lng >= -Pi && lng <= r.maxLng)
  }

  /** The corrected test: a latitude outside the bounds is never contained;
      an ordinary box holds exactly its longitude interval; a wrapped box
      holds exactly the longitudes of [-PI, PI] that are not strictly
      between maxLng and minLng (the gap it goes around). */
  lemma ContainsRadiansMeaning(r: Region, lat: real, lng: real)
    requires r.Rect?
    ensures !(r.minLat <= lat <= r.maxLat) ==> !ContainsRadians(r, lat, lng)
    ensures r.minLat <= lat <= r.maxLat && r.minLng <= r.maxLng ==>
      (ContainsRadians(r, lat, lng) <==> r.minLng <= lng <= r.maxLng)
    ensures r.minLat <= lat <= r.maxLat && r.minLng > r.maxLng && -Pi <= lng <= Pi
            && -Pi <= r.maxLng && r.minLng <= Pi ==>
      (ContainsRadians(r, lat, lng) <==> !(r.maxLng < lng < r.minLng))
  {
  }

  /** `Region.contains`: the coordinate's latitude and longitude tested with
      `containsRadians` as written. */
  predicate Contains(r: Region, c: Coordinate)
    requires r.Rect?
  {
    ContainsRadiansAsWritten(r, c.lat, c.lng)
  }

  /** `Region.contains` as evidently intended, over the corrected test. */
  predicate ContainsIntended(r: Region, c: Coordinate)
    requires r.Rect?
  {
    ContainsRadians(r, c.lat, c.lng)
  }

  /** `contains` as written and as intended agree on every box that does not
      wrap past +-180 degrees. */
  lemma ContainsAgreesUnlessWrapped(r: Region, c: Coordinate)
    requires r.Rect? && r.minLng <= r.maxLng
    ensures Contains(r, c) <==> ContainsIntended(r, c)
  {
  }

  /** Every corner of a box with longitudes in [-PI, PI] and ordered
      latitudes lies in the box, whether or not it wraps, both as written
      and as intended. */
  lemma RectContainsItsCorners(r: Region, k: nat)
    requires r.Rect? && r.minLat <= r.maxLat
    requires -Pi <= r.minLng <= Pi && -Pi <= r.maxLng <= Pi
    requires k < 4
    ensures Contains(r, Representatives(r)[k]) && ContainsIntended(r, Representatives(r)[k])
  {
  }

  /** A box contains its own centre when its bounds are ordered. */
  lemma RectContainsCenter(r: Region)
    requires r.Rect? && r.minLat <= r.maxLat && r.minLng <= r.maxLng
    ensures Contains(r, Center(r)) && ContainsIntended(r, Center(r))
  {
    var c := Center(r);
    assert r.minLat <= c.lat <= r.maxLat && r.minLng <= c.lng <= r.maxLng;
  }

  // ---------------------------------------------------------------------
  // Degree accessors of Region

  /** `getMinLatDegrees` as written: multiplies the radian bound by PI/180. */
  function MinLatDegreesAsWritten(r: Region): real requires r.Rect? { r.minLat * Pi / 180.0 }
  function MaxLatDegreesAsWritten(r: Region): real requires r.Rect? { r.maxLat * Pi / 180.0 }
  function MinLngDegreesAsWritten(r: Region): real requires r.Rect? { r.minLng * Pi / 180.0 }
  function MaxLngDegreesAsWritten(r: Region): real requires r.Rect? { r.maxLng * Pi / 180.0 }

  /** As written, building a box back from its degree accessors does not give
      the box: a box with every bound at 1 radian comes back with every bound
      at PI*PI/32400 radians. */
  lemma DegreesAsWrittenBreakRoundTrip()
    ensures var r := Rect(1.0, 1.0, 1.0, 1.0);
      FromDegrees(MinLatDegreesAsWritten(r), MaxLatDegreesAsWritten(r),
                  MinLngDegreesAsWritten(r), MaxLngDegreesAsWritten(r)) != r
  {
    var r := Rect(1.0, 1.0, 1.0, 1.0);
    assert MinLatDegreesAsWritten(r) < 0.02;
    assert FromDegrees(MinLatDegreesAsWritten(r), MaxLatDegreesAsWritten(r),
                       MinLngDegreesAsWritten(r), MaxLngDegreesAsWritten(r)).minLat < 0.001;
  }

  /** The degree accessors as evidently intended: radians times 180/PI. */
  function MinLatDegrees(r: Region): real requires r.Rect? { r.minLat * 180.0 / Pi }
  function MaxLatDegrees(r: Region): real requires r.Rect? { r.maxLat * 180.0 / Pi }
  function MinLngDegrees(r: Region): real requires r.Rect? { r.minLng * 180.0 / Pi }
  function MaxLngDegrees(r: Region): real requires r.Rect? { r.maxLng * 180.0 / Pi }

  /** With the corrected accessors, a box rebuilt from its bounds in degrees
      is the box itself, and a box built from degrees reports those degrees. */
  lemma DegreesRoundTrip(r: Region, minLat: real, maxLat: real, minLng: real, maxLng: real)
    requires r.Rect?
    ensures FromDegrees(MinLatDegrees(r), MaxLatDegrees(r), MinLngDegrees(r), MaxLngDegrees(r)) == r
    ensures var b := FromDegrees(minLat, maxLat, minLng, maxLng);
      MinLatDegrees(b) == minLat && MaxLatDegrees(b) == maxLat
      && MinLngDegrees(b) == minLng && MaxLngDegrees(b) == maxLng
  {
  }

  // ---------------------------------------------------------------------
  // Distances of Region

  /** The distances from coordinate `a` to each of `ys`. */
  function DistancesFrom(a: Coordinate, ys: seq<Coordinate>, cd: (Coordinate, Coordinate) -> real): (ds: seq<real>)
    ensures |ds| == |ys| && forall j :: 0 <= j < |ys| ==> ds[j] == cd(a, ys[j])
  {
    seq(|ys|, j requires 0 <= j < |ys| => cd(a, ys[j]))
  }

  /** The distances from each of `xs` to coordinate `b`. */
  function DistancesTo(xs: seq<Coordinate>, b: Coordinate, cd: (Coordinate, Coordinate) -> real): (ds: seq<real>)
    ensures |ds| == |xs| && forall i :: 0 <= i < |xs| ==> ds[i] == cd(xs[i], b)
  {
    seq(|xs|, i requires 0 <= i < |xs| => cd(xs[i], b))
  }

  /** The minimum of `cd(a, b)` over every `a` of `xs` and `b` of `ys`, as the
      nested loop of `distance(Region)` leaves `minDist`. */
  function MinPairDistance(xs: seq<Coordinate>, ys: seq<Coordinate>, cd: (Coordinate, Coordinate) -> real): ExtReal {
    if xs == [] then Inf
    else MinOf(MinPairDistance(xs[..|xs| - 1], ys, cd), MinAll(DistancesFrom(xs[|xs| - 1], ys, cd)))
  }

  /** The pair minimum is below or equal to every pairwise distance, is
      attained by some pair when both lists are non-empty, and is +Infinity
      exactly when either list is empty. */
  lemma {:induction false} MinPairDistanceIsMinimum(xs: seq<Coordinate>, ys: seq<Coordinate>, cd: (Coordinate, Coordinate) -> real)
    ensures MinPairDistance(xs, ys, cd).Inf? <==> xs == [] || ys == []
    ensures forall i, j :: 0 <= i < |xs| && 0 <= j < |ys| ==> !Below(Fin(cd(xs[i], ys[j])), MinPairDistance(xs, ys, cd))
    ensures xs != [] && ys != [] ==>
      exists i, j :: 0 <= i < |xs| && 0 <= j < |ys| && MinPairDistance(xs, ys, cd) == Fin(cd(xs[i], ys[j]))
  {
    if xs != [] {
      var init := xs[..|xs| - 1];
      var a := xs[|xs| - 1];
      var row := DistancesFrom(a, ys, cd);
      MinPairDistanceIsMinimum(init, ys, cd);
      MinAllIsMinimum(row);
      assert forall i :: 0 <= i < |init| ==> init[i] == xs[i];
      forall i, j | 0 <= i < |xs| && 0 <= j < |ys|
        ensures !Below(Fin(cd(xs[i], ys[j])), MinPairDistance(xs, ys, cd))
      {
        if i == |xs| - 1 {
          assert row[j] == cd(xs[i], ys[j]);
        }
      }
      if ys != [] {
        var k :| 0 <= k < |row| && MinAll(row) == Fin(row[k]);
        if init != [] {
          var i, j :| 0 <= i < |init| && 0 <= j < |ys| && MinPairDistance(init, ys, cd) == Fin(cd(init[i], ys[j]));
          assert MinPairDistance(xs, ys, cd) == Fin(cd(xs[i], ys[j])) || MinPairDistance(xs, ys, cd) == Fin(cd(xs[|xs| - 1], ys[k]));
        } else {
          assert MinPairDistance(xs, ys, cd) == Fin(cd(xs[|xs| - 1], ys[k]));
        }
      }
    }
  }

  /** `Region.distance(Region)`: the least distance between a representative
      of this region and a representative of the other. */
  function Distance(r: Region, other: Region, cd: (Coordinate, Coordinate) -> real): ExtReal {
    MinPairDistance(Representatives(r), Representatives(other), cd)
  }

  /** `distance(Region)` is at most every pairwise representative distance,
      some pair attains it when both lists are non-empty, and it is +Infinity
      exactly when either region has no representative. */
  lemma DistanceIsLeastRepresentativeDistance(r: Region, other: Region, cd: (Coordinate, Coordinate) -> real)
    ensures var d := Distance(r, other, cd);
      var xs, ys := Representatives(r), Representatives(other);
      && (d.Inf? <==> xs == [] || ys == [])
      && (forall i, j :: 0 <= i < |xs| && 0 <= j < |ys| ==> !Below(Fin(cd(xs[i], ys[j])), d))
      && (xs != [] && ys != [] ==> exists i, j :: 0 <= i < |xs| && 0 <= j < |ys| && d == Fin(cd(xs[i], ys[j])))
  {
    MinPairDistanceIsMinimum(Representatives(r), Representatives(other), cd);
  }

  /** Two extended reals that are each below-or-equal to the other are equal. */
  lemma Antisymmetric(x: ExtReal, y: ExtReal)
    requires !Below(x, y) && !Below(y, x)
    ensures x == y
  {
  }

  /** `distance(Region)` is symmetric when the coordinate distance is: both
      directions are the minimum of the same set of distances. */
  lemma DistanceSymmetric(r: Region, other: Region, cd: (Coordinate, Coordinate) -> real)
    requires forall a, b :: cd(a, b) == cd(b, a)
    ensures Distance(r, other, cd) == Distance(other, r, cd)
  {
    var xs, ys := Representatives(r), Representatives(other);
    var d1, d2 := Distance(r, other, cd), Distance(other, r, cd);
    MinPairDistanceIsMinimum(xs, ys, cd);
    MinPairDistanceIsMinimum(ys, xs, cd);
    if xs != [] && ys != [] {
      var i, j :| 0 <= i < |xs| && 0 <= j < |ys| && d1 == Fin(cd(xs[i], ys[j]));
      var j', i' :| 0 <= j' < |ys| && 0 <= i' < |xs| && d2 == Fin(cd(ys[j'], xs[i']));
      assert !Below(Fin(cd(ys[j], xs[i])), d2);
      assert !Below(Fin(cd(xs[i'], ys[j'])), d1);
      Antisymmetric(d1, d2);
    }
  }

  /** `Region.distance(Coordinate)`: the least distance from a representative
      of the region to the coordinate. */
  function DistanceToCoordinate(r: Region, c: Coordinate, cd: (Coordinate, Coordinate) -> real): ExtReal {
    MinAll(DistancesTo(Representatives(r), c, cd))
  }

  /** `distance(Coordinate)` is +Infinity exactly for a region without
      representatives, is at most the distance of every representative, and
      is the distance of some representative. */
  lemma DistanceToCoordinateIsLeast(r: Region, c: Coordinate, cd: (Coordinate, Coordinate) -> real)
    ensures var d, reps := DistanceToCoordinate(r, c, cd), Representatives(r);
      && (d.Inf? <==> reps == [])
      && (forall i :: 0 <= i < |reps| ==> !Below(Fin(cd(reps[i], c)), d))
      && (reps != [] ==> exists i :: 0 <= i < |reps| && d == Fin(cd(reps[i], c)))
  {
    MinAllIsMinimum(DistancesTo(Representatives(r), c, cd));
  }

  /** `distanceInKm`: the centre-to-centre kilometre distance `cdKm` when both
      regions have exactly one representative, and otherwise
      `EarthRadiusKm` times `distance(Region)`. */
  function DistanceInKm(r: Region, other: Region, cd: (Coordinate, Coordinate) -> real,
                        cdKm: (Coordinate, Coordinate) -> real): ExtReal
  {
    if |Representatives(r)| == 1 && |Representatives(other)| == 1 then Fin(cdKm(Center(r), Center(other)))
    else Scale(EarthRadiusKm, Distance(r, other, cd))
  }

  /** Between two single-coordinate regions the kilometre distance is the
      centre-to-centre one; between two boxes it is finite, is 6372.8 times
      the distance of some pair of corners and is at most 6372.8 times the
      distance of any pair of corners. */
  lemma DistanceInKmCases(r: Region, other: Region, cd: (Coordinate, Coordinate) -> real,
                          cdKm: (Coordinate, Coordinate) -> real)
    ensures |Representatives(r)| == 1 && |Representatives(other)| == 1 ==>
      DistanceInKm(r, other, cd, cdKm) == Fin(cdKm(Center(r), Center(other)))
    ensures r.Rect? && other.Rect? ==>
      var km := DistanceInKm(r, other, cd, cdKm);
      var xs, ys := Representatives(r), Representatives(other);
      && km.Fin?
      && (exists i, j :: 0 <= i < 4 && 0 <= j < 4 && km.r == EarthRadiusKm * cd(xs[i], ys[j]))
      && (forall i, j :: 0 <= i < 4 && 0 <= j < 4 ==> km.r <= EarthRadiusKm * cd(xs[i], ys[j]))
  {
    DistanceIsLeastRepresentativeDistance(r, other, cd);
  }
}
