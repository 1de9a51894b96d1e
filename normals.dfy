/** The finite-difference vertex normal: four cross products of the edges to
    the axis neighbours, summed. Normalisation (FVector::GetSafeNormal needs a
    square root) is left to the caller. */
module Normals {
  import opened Vectors

  /** The edge vector from the vertex at grid point (px, py) to its neighbour
      one step along (sx, sy). */
  function Edge(px: real, py: real, sx: real, sy: real, u: real, ampl: real, hCentre: real, h: real): Vec3
  {
    Sub(Vec3((px + sx) * u, (py + sy) * u, h * ampl), Vec3(px * u, py * u, hCentre * ampl))
  }

  /** n1 + n2 + n3 + n4 of the worker: each edge crossed with the next one round. */
  function CrossSum(up: Vec3, down: Vec3, left: Vec3, right: Vec3): Vec3
  {
    Add(Add(Add(Cross(left, up), Cross(up, right)), Cross(right, down)), Cross(down, left))
  }

  /** The unnormalised normal at grid point (px, py), spacing `u`, from the
      centre height and the four neighbour heights, each scaled by `ampl`.
      `left` is the +X neighbour and `right` the -X one, as named in the worker. */
  function NeighbourNormalSum(px: real, py: real, u: real, ampl: real,
                              hCentre: real, hUp: real, hDown: real, hLeft: real, hRight: real): Vec3
  {
    CrossSum(Edge(px, py, 0.0, 1.0, u, ampl, hCentre, hUp),
             Edge(px, py, 0.0, -1.0, u, ampl, hCentre, hDown),
             Edge(px, py, 1.0, 0.0, u, ampl, hCentre, hLeft),
             Edge(px, py, -1.0, 0.0, u, ampl, hCentre, hRight))
  }

  /** The central-difference normal of spacing `u`: the height drops across
      the vertex along X and along Y, times 2u and the amplitude, over 4u². */
  function GradientNormal(u: real, ampl: real, hRight: real, hLeft: real, hDown: real, hUp: real): Vec3
  {
    Vec3(2.0 * u * ampl * (hRight - hLeft), 2.0 * u * ampl * (hDown - hUp), 4.0 * u * u)
  }

  /** The sum is the central-difference gradient normal: it does not depend on
      the position or the centre height, and its vertical part is 4u². */
  lemma NormalSumClosedForm(px: real, py: real, u: real, ampl: real,
                            hCentre: real, hUp: real, hDown: real, hLeft: real, hRight: real)
    ensures NeighbourNormalSum(px, py, u, ampl, hCentre, hUp, hDown, hLeft, hRight)
         == GradientNormal(u, ampl, hRight, hLeft, hDown, hUp)
  {
    var dU, dD, dL, dR := (hUp - hCentre) * ampl, (hDown - hCentre) * ampl,
                          (hLeft - hCentre) * ampl, (hRight - hCentre) * ampl;
    EdgeTo(px, py, 0.0, 1.0, u, ampl, hCentre, hUp);
    EdgeTo(px, py, 0.0, -1.0, u, ampl, hCentre, hDown);
    EdgeTo(px, py, 1.0, 0.0, u, ampl, hCentre, hLeft);
    EdgeTo(px, py, -1.0, 0.0, u, ampl, hCentre, hRight);
    SumOfCrosses(u, dU, dD, dL, dR);
    Difference(u, ampl, hCentre, hRight, hLeft);
    Difference(u, ampl, hCentre, hDown, hUp);
  }

  lemma EdgeTo(px: real, py: real, sx: real, sy: real, u: real, ampl: real, hCentre: real, h: real)
    ensures Edge(px, py, sx, sy, u, ampl, hCentre, h) == Vec3(sx * u, sy * u, (h - hCentre) * ampl)
  {
  }

  lemma SumOfCrosses(u: real, dU: real, dD: real, dL: real, dR: real)
    ensures CrossSum(Vec3(0.0 * u, 1.0 * u, dU), Vec3(0.0 * u, -1.0 * u, dD),
                     Vec3(1.0 * u, 0.0 * u, dL), Vec3(-1.0 * u, 0.0 * u, dR))
         == Vec3(2.0 * (u * dR - u * dL), 2.0 * (u * dD - u * dU), 4.0 * u * u)
  {
    assert Cross(Vec3(u, 0.0, dL), Vec3(0.0, u, dU)) == Vec3(-u * dL, -u * dU, u * u);
    assert Cross(Vec3(0.0, u, dU), Vec3(-u, 0.0, dR)) == Vec3(u * dR, -u * dU, u * u);
    assert Cross(Vec3(-u, 0.0, dR), Vec3(0.0, -u, dD)) == Vec3(u * dR, u * dD, u * u);
    assert Cross(Vec3(0.0, -u, dD), Vec3(u, 0.0, dL)) == Vec3(-u * dL, u * dD, u * u);
  }

  lemma Difference(u: real, ampl: real, hCentre: real, h1: real, h2: real)
    ensures 2.0 * (u * ((h1 - hCentre) * ampl) - u * ((h2 - hCentre) * ampl)) == 2.0 * u * ampl * (h1 - h2)
  {
  }

  /** On a non-degenerate grid the summed normal always points up, so the
      mesh faces upward whatever the heights. */
  lemma NormalSumPointsUp(px: real, py: real, u: real, ampl: real,
                          hCentre: real, hUp: real, hDown: real, hLeft: real, hRight: real)
    requires u != 0.0
    ensures Dot(NeighbourNormalSum(px, py, u, ampl, hCentre, hUp, hDown, hLeft, hRight), Vec3(0.0, 0.0, 1.0)) > 0.0
  {
    NormalSumClosedForm(px, py, u, ampl, hCentre, hUp, hDown, hLeft, hRight);
    assert u * u > 0.0;
  }

  /** Where the neighbours are level with each other the sum is vertical. */
  lemma LevelNeighboursGiveVerticalNormal(px: real, py: real, u: real, ampl: real, hCentre: real, h: real)
    ensures NeighbourNormalSum(px, py, u, ampl, hCentre, h, h, h, h) == Vec3(0.0, 0.0, 4.0 * u * u)
  {
    NormalSumClosedForm(px, py, u, ampl, hCentre, h, h, h, h);
  }
}
