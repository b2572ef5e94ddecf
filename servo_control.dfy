/** The controller's pure core: the mean horizontal centre of the detected
    face rectangles, and the normalised horizontal error of that centre from
    the middle of the frame. */
module ServoControl {

  /** Frame width in pixels. */
  const FrameWidth := 640

  /** A detected face: the rectangle `(x, y, width, height)` in pixels. */
  datatype Face = Face(x: int, y: int, width: int, height: int)

  /** Horizontal centre of a face, `x + width / 2` (true division). */
  function Centre(f: Face): real
  {
    f.x as real + f.width as real / 2.0
  }

  /** Sum of the horizontal centres, accumulated from the first face on. */
  function SumCentres(faces: seq<Face>): real
  {
    if faces == [] then 0.0 else SumCentres(faces[..|faces| - 1]) + Centre(faces[|faces| - 1])
  }

  /** Mean horizontal centre of a non-empty list of faces. */
  function MeanCentre(faces: seq<Face>): real
    requires |faces| > 0
  {
    SumCentres(faces) / |faces| as real
  }

  /** Accumulates `x + width / 2` over the faces, then divides by their
      number. An empty list would divide by zero, so it is excluded. */
  method CalculateFacePositions(faces: seq<Face>) returns (avgX: real)
    requires |faces| > 0
    ensures avgX == MeanCentre(faces)
  {
    avgX := 0.0;
    for i := 0 to |faces|
      invariant avgX == SumCentres(faces[..i])
    {
      assert faces[..i + 1][..i] == faces[..i];
      var face := faces[i];
      avgX := avgX + (face.x as real + face.width as real / 2.0);
    }
    assert faces[..|faces|] == faces;
    avgX := avgX / |faces| as real;
  }

  /** A single face yields exactly its own horizontal centre. */
  lemma MeanOfOneFace(f: Face)
    ensures MeanCentre([f]) == Centre(f)
  {
    assert [f][..0] == [];
    assert SumCentres([f]) == SumCentres([]) + Centre(f);
  }

  /** The two-face example: centres 25 and 85, mean 55. */
  lemma MeanOfTwoFaces()
    ensures MeanCentre([Face(10, 20, 30, 40), Face(50, 60, 70, 80)]) == 55.0
  {
    var faces := [Face(10, 20, 30, 40), Face(50, 60, 70, 80)];
    assert faces[..1] == [faces[0]];
    MeanOfOneFace(faces[0]);
    assert SumCentres(faces) == SumCentres([faces[0]]) + Centre(faces[1]) == 25.0 + 85.0;
  }

  /** The sum depends only on each face's `x` and `width`. */
  lemma {:induction false} SumIgnoresVertical(faces: seq<Face>, others: seq<Face>)
    requires |faces| == |others|
    requires forall i :: 0 <= i < |faces| ==> faces[i].x == others[i].x && faces[i].width == others[i].width
    ensures SumCentres(faces) == SumCentres(others)
  {
    if faces != [] {
      var n := |faces| - 1;
      SumIgnoresVertical(faces[..n], others[..n]);
    }
  }

  /** Hence so does the mean: `y` and `height` are ignored. */
  lemma MeanIgnoresVertical(faces: seq<Face>, others: seq<Face>)
    requires |faces| == |others| > 0
    requires forall i :: 0 <= i < |faces| ==> faces[i].x == others[i].x && faces[i].width == others[i].width
    ensures MeanCentre(faces) == MeanCentre(others)
  {
    SumIgnoresVertical(faces, others);
  }

  lemma {:induction false} SumCentresBounds(faces: seq<Face>, lo: real, hi: real)
    requires forall i :: 0 <= i < |faces| ==> lo <= Centre(faces[i]) <= hi
    ensures |faces| as real * lo <= SumCentres(faces) <= |faces| as real * hi
  {
    if faces != [] {
      var n := |faces| - 1;
      assert forall i :: 0 <= i < n ==> faces[..n][i] == faces[i];
      SumCentresBounds(faces[..n], lo, hi);
      assert (n + 1) as real * lo == n as real * lo + lo;
      assert (n + 1) as real * hi == n as real * hi + hi;
    }
  }

  /** If every face centre lies in `[lo, hi]`, so does the mean. */
  lemma MeanWithinBounds(faces: seq<Face>, lo: real, hi: real)
    requires |faces| > 0
    requires forall i :: 0 <= i < |faces| ==> lo <= Centre(faces[i]) <= hi
    ensures lo <= MeanCentre(faces) <= hi
  {
    SumCentresBounds(faces, lo, hi);
    var n := |faces| as real;
    var m := MeanCentre(faces);
    assert SumCentres(faces) == m * n;
    assert n * lo <= m * n <= n * hi;
  }

  /** Horizontal error of `avgX` from the frame centre, as a fraction of half
      the frame width: `(avgX - W/2) / (W/2)`. A zero width divides by zero. */
  function NormalisedError(avgX: real, frameWidth: int): (e: real)
    requires frameWidth != 0
    ensures e * (frameWidth as real / 2.0) == avgX - frameWidth as real / 2.0
    ensures frameWidth > 0 ==> (e < 0.0 <==> avgX < frameWidth as real / 2.0)
    ensures frameWidth > 0 && 0.0 <= avgX <= frameWidth as real ==> -1.0 <= e <= 1.0
  {
    var half := frameWidth as real / 2.0;
    var e := (avgX - half) / half;
    assert e * half == avgX - half;
    e
  }

  /** With the 640-pixel frame, a face centred at x = 100 is 220 pixels left
      of centre: an error of -220 / 320. */
  lemma NormalisedErrorExample()
    ensures NormalisedError(100.0, FrameWidth) == -0.6875
  {
  }
}
