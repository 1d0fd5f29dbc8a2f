/** The two pure geometry helpers of the vision layer: the letterbox fit that
    `drawVideoFrameToCanvas` computes before drawing a video frame, and
    `computeProjMat`, which turns a camera pose and the camera matrix into the
    renderer's projection matrix. Numbers are reals, not IEEE doubles.
 */
module Helpers {
  import opened Matrix4

  // ---------------------------------------------------------------------
  // Letterbox fit (drawVideoFrameToCanvas)
  // ---------------------------------------------------------------------

  /** Where a frame of the image lands on the canvas: the uniform scale
      `ratio` and the top-left corner (`x`, `y`) of the drawn rectangle. */
  datatype Fit = Fit(ratio: real, x: real, y: real)

  function Min(a: real, b: real): real
  {
    if a <= b then a else b
  }

  /** The ratio and offsets of `drawVideoFrameToCanvas` for a canvas of
      `canvasWidth`×`canvasHeight` pixels and an image of
      `imageWidth`×`imageHeight` pixels: the largest uniform scale at which
      the image fits, with the image centred in the spare room. */
  function LetterboxFit(canvasWidth: nat, canvasHeight: nat, imageWidth: nat, imageHeight: nat): (f: Fit)
    requires imageWidth > 0 && imageHeight > 0
    ensures imageWidth as real * f.ratio <= canvasWidth as real
    ensures imageHeight as real * f.ratio <= canvasHeight as real
    ensures imageWidth as real * f.ratio == canvasWidth as real
         || imageHeight as real * f.ratio == canvasHeight as real
    ensures 2.0 * f.x + imageWidth as real * f.ratio == canvasWidth as real
    ensures 2.0 * f.y + imageHeight as real * f.ratio == canvasHeight as real
    ensures f.x >= 0.0 && f.y >= 0.0
  {
    var ratio := Min(canvasWidth as real / imageWidth as real, canvasHeight as real / imageHeight as real);
    var x := (canvasWidth as real - imageWidth as real * ratio) / 2.0;
    var y := (canvasHeight as real - imageHeight as real * ratio) / 2.0;
    Fit(ratio, x, y)
  }

  /** The fit is the largest one: every uniform scale at which the whole
      image stays inside the canvas is at most the chosen ratio. */
  lemma LetterboxFitIsLargest(canvasWidth: nat, canvasHeight: nat, imageWidth: nat, imageHeight: nat, s: real)
    requires imageWidth > 0 && imageHeight > 0
    requires imageWidth as real * s <= canvasWidth as real
    requires imageHeight as real * s <= canvasHeight as real
    ensures s <= LetterboxFit(canvasWidth, canvasHeight, imageWidth, imageHeight).ratio
  {
    var f := LetterboxFit(canvasWidth, canvasHeight, imageWidth, imageHeight);
    if imageWidth as real * f.ratio == canvasWidth as real {
      assert imageWidth as real * s <= imageWidth as real * f.ratio;
    } else {
      assert imageHeight as real * s <= imageHeight as real * f.ratio;
    }
  }

  // ---------------------------------------------------------------------
  // Projection matrix (computeProjMat)
  // ---------------------------------------------------------------------

  /** A 3×3 matrix as the nine numbers of OpenCV's `data64F`, row-major: the
      rotation `rmat` and the camera matrix. The layout is that of
      `Calibration.CameraMatrix`. */
  type Mat3 = s: seq<real> | |s| == 9
    witness [0.0, 0.0, 0.0, 0.0, 0.0, 0.0, 0.0, 0.0, 0.0]

  type Vec3 = s: seq<real> | |s| == 3
    witness [0.0, 0.0, 0.0]

  /** `flipMat`. */
  function FlipMat(): Mat4
  {
    [1.0, 0.0, 0.0, 0.0,
     0.0, -1.0, 0.0, 0.0,
     0.0, 0.0, -1.0, 0.0,
     0.0, 0.0, 0.0, 1.0]
  }

  /** `homogeneousRotMat`, written column by column from the row-major `rmat`. */
  function RotMat(rmat: Mat3): Mat4
  {
    [rmat[0], rmat[3], rmat[6], 0.0,
     rmat[1], rmat[4], rmat[7], 0.0,
     rmat[2], rmat[5], rmat[8], 0.0,
     0.0, 0.0, 0.0, 1.0]
  }

  /** `transMat`. */
  function TransMat(tvec: Vec3): Mat4
  {
    [1.0, 0.0, 0.0, 0.0,
     0.0, 1.0, 0.0, 0.0,
     0.0, 0.0, 1.0, 0.0,
     tvec[0], tvec[1], tvec[2], 1.0]
  }

  /** `perspMat` for the focal length `focalLength`. */
  function PerspMat(focalLength: real): Mat4
    requires focalLength != 0.0
  {
    [1.0, 0.0, 0.0, 0.0,
     0.0, 1.0, 0.0, 0.0,
     0.0, 0.0, 1.0, 1.0 / focalLength,
     0.0, 0.0, 0.0, 0.0]
  }

  /** `scaleMat` for the viewport `ratio` and the principal point read from
      the camera matrix. */
  function ScaleMat(ratio: real, cameraMatrix: Mat3): Mat4
  {
    [ratio, 0.0, 0.0, 0.0,
     0.0, ratio, 0.0, 0.0,
     0.0, 0.0, ratio, 0.0,
     cameraMatrix[2] * ratio, cameraMatrix[5] * ratio, 0.0, 1.0]
  }

  /** The flip is diag(1, -1, -1, 1): it turns OpenCV's y-down, z-forward
      camera frame into the renderer's y-up, z-backward frame. */
  lemma FlipMatLayout()
    ensures forall i, j :: 0 <= i < 4 && 0 <= j < 4 ==>
      At(FlipMat(), i, j) == if i != j then 0.0 else if i == 1 || i == 2 then -1.0 else 1.0
  {
  }

  /** The rotation's upper-left block is `rmat` read row-major, and its last
      row and column are those of the identity. */
  lemma RotMatLayout(rmat: Mat3)
    ensures forall i, j :: 0 <= i < 3 && 0 <= j < 3 ==> At(RotMat(rmat), i, j) == rmat[3 * i + j]
    ensures forall k :: 0 <= k < 3 ==> At(RotMat(rmat), k, 3) == 0.0 && At(RotMat(rmat), 3, k) == 0.0
    ensures At(RotMat(rmat), 3, 3) == 1.0
  {
  }

  /** The translation is the identity except for its fourth column, which
      is (tvec[0], tvec[1], tvec[2], 1). */
  lemma TransMatLayout(tvec: Vec3)
    ensures forall i, j :: 0 <= i < 4 && 0 <= j < 3 ==> At(TransMat(tvec), i, j) == if i == j then 1.0 else 0.0
    ensures At(TransMat(tvec), 0, 3) == tvec[0] && At(TransMat(tvec), 1, 3) == tvec[1]
    ensures At(TransMat(tvec), 2, 3) == tvec[2] && At(TransMat(tvec), 3, 3) == 1.0
  {
  }

  /** The perspective matrix keeps the first three rows of the identity; its
      last row is (0, 0, 1/f, 0). */
  lemma PerspMatLayout(focalLength: real)
    requires focalLength != 0.0
    ensures forall i, j :: 0 <= i < 3 && 0 <= j < 4 ==> At(PerspMat(focalLength), i, j) == if i == j then 1.0 else 0.0
    ensures At(PerspMat(focalLength), 3, 0) == 0.0 && At(PerspMat(focalLength), 3, 1) == 0.0
    ensures At(PerspMat(focalLength), 3, 2) == 1.0 / focalLength && At(PerspMat(focalLength), 3, 3) == 0.0
  {
  }

  /** The scale matrix has `ratio` on the first three diagonal entries and
      fourth column (cx·ratio, cy·ratio, 0, 1), where cx = cameraMatrix[2]
      and cy = cameraMatrix[5]. */
  lemma ScaleMatLayout(ratio: real, cameraMatrix: Mat3)
    ensures forall i, j :: 0 <= i < 4 && 0 <= j < 3 ==>
      At(ScaleMat(ratio, cameraMatrix), i, j) == if i != j then 0.0 else if i < 3 then ratio else 1.0
    ensures At(ScaleMat(ratio, cameraMatrix), 0, 3) == cameraMatrix[2] * ratio
    ensures At(ScaleMat(ratio, cameraMatrix), 1, 3) == cameraMatrix[5] * ratio
    ensures At(ScaleMat(ratio, cameraMatrix), 2, 3) == 0.0 && At(ScaleMat(ratio, cameraMatrix), 3, 3) == 1.0
  {
  }

  /** The flip negates y and z and keeps x and w. */
  lemma FlipMatAction(v: Vec4)
    ensures Apply(FlipMat(), v) == [v[0], -v[1], -v[2], v[3]]
  {
    var r := Apply(FlipMat(), v);
    assert r[0] == v[0] && r[1] == -v[1] && r[2] == -v[2] && r[3] == v[3];
  }

  /** The rotation stage rotates x, y, z by `rmat` and keeps w. */
  lemma RotMatAction(rmat: Mat3, v: Vec4)
    ensures Apply(RotMat(rmat), v) ==
      [rmat[0] * v[0] + rmat[1] * v[1] + rmat[2] * v[2],
       rmat[3] * v[0] + rmat[4] * v[1] + rmat[5] * v[2],
       rmat[6] * v[0] + rmat[7] * v[1] + rmat[8] * v[2],
       v[3]]
  {
    var r := Apply(RotMat(rmat), v);
    assert r[0] == rmat[0] * v[0] + rmat[1] * v[1] + rmat[2] * v[2];
    assert r[1] == rmat[3] * v[0] + rmat[4] * v[1] + rmat[5] * v[2];
    assert r[2] == rmat[6] * v[0] + rmat[7] * v[1] + rmat[8] * v[2];
    assert r[3] == v[3];
  }

  /** The translation stage moves a point (w = 1) by `tvec`; in general it
      adds w·tvec to x, y, z. */
  lemma TransMatAction(tvec: Vec3, v: Vec4)
    ensures Apply(TransMat(tvec), v) ==
      [v[0] + tvec[0] * v[3], v[1] + tvec[1] * v[3], v[2] + tvec[2] * v[3], v[3]]
  {
    var r := Apply(TransMat(tvec), v);
    assert r[0] == v[0] + tvec[0] * v[3];
    assert r[1] == v[1] + tvec[1] * v[3];
    assert r[2] == v[2] + tvec[2] * v[3];
    assert r[3] == v[3];
  }

  /** The perspective stage keeps x, y, z and replaces w by z / f: the
      incoming w is discarded. */
  lemma PerspMatAction(focalLength: real, v: Vec4)
    requires focalLength != 0.0
    ensures Apply(PerspMat(focalLength), v) == [v[0], v[1], v[2], v[2] / focalLength]
  {
    var r := Apply(PerspMat(focalLength), v);
    assert r[0] == v[0] && r[1] == v[1] && r[2] == v[2];
    assert r[3] == v[2] / focalLength;
  }

  /** The scale stage scales x, y, z by `ratio` and shifts x, y by w times
      the scaled principal point. */
  lemma ScaleMatAction(ratio: real, cameraMatrix: Mat3, v: Vec4)
    ensures Apply(ScaleMat(ratio, cameraMatrix), v) ==
      [ratio * v[0] + cameraMatrix[2] * ratio * v[3],
       ratio * v[1] + cameraMatrix[5] * ratio * v[3],
       ratio * v[2],
       v[3]]
  {
    var r := Apply(ScaleMat(ratio, cameraMatrix), v);
    assert r[0] == ratio * v[0] + cameraMatrix[2] * ratio * v[3];
    assert r[1] == ratio * v[1] + cameraMatrix[5] * ratio * v[3];
    assert r[2] == ratio * v[2];
    assert r[3] == v[3];
  }

  /** `computeProjMat`: the product accumulated the way the source builds it,
      by successive `mat4.mul` calls into one buffer, each new factor on the
      left. The result acts on a point as the six stages in order: the flip
      first, then the rotation, the translation, the scene's view matrix, the
      perspective row and finally the viewport scale. */
  function ComputeProjMat(ratio: real, cameraMatrix: Mat3, rmat: Mat3, tvec: Vec3, viewMatrix: Mat4): (r: Mat4)
    requires cameraMatrix[0] != 0.0
    ensures forall v: Vec4 :: (Apply(r, v) ==
      Apply(ScaleMat(ratio, cameraMatrix),
        Apply(PerspMat(cameraMatrix[0]),
          Apply(viewMatrix,
            Apply(TransMat(tvec),
              Apply(RotMat(rmat),
                Apply(FlipMat(), v)))))))
  {
    var projMat := Mul(RotMat(rmat), FlipMat());
    MulApply(RotMat(rmat), FlipMat());
    var projMat' := Mul(TransMat(tvec), projMat);
    MulApply(TransMat(tvec), projMat);
    var projMat'' := Mul(viewMatrix, projMat');
    MulApply(viewMatrix, projMat');
    var focalLength := cameraMatrix[0];
    var projMat''' := Mul(PerspMat(focalLength), projMat'');
    MulApply(PerspMat(focalLength), projMat'');
    MulApply(ScaleMat(ratio, cameraMatrix), projMat''');
    Mul(ScaleMat(ratio, cameraMatrix), projMat''')
  }

  /** The projection reads the camera matrix only at the focal length
      (index 0) and the principal point (indices 2 and 5). */
  lemma ProjMatReadsFocalAndPrincipalPoint(ratio: real, cameraMatrix: Mat3, cameraMatrix': Mat3,
                                           rmat: Mat3, tvec: Vec3, viewMatrix: Mat4)
    requires cameraMatrix[0] != 0.0
    requires cameraMatrix'[0] == cameraMatrix[0]
    requires cameraMatrix'[2] == cameraMatrix[2] && cameraMatrix'[5] == cameraMatrix[5]
    ensures ComputeProjMat(ratio, cameraMatrix, rmat, tvec, viewMatrix)
         == ComputeProjMat(ratio, cameraMatrix', rmat, tvec, viewMatrix)
  {
    var scale := ScaleMat(ratio, cameraMatrix);
    assert scale == ScaleMat(ratio, cameraMatrix') by {
      var scale' := ScaleMat(ratio, cameraMatrix');
      assert scale[12] == scale'[12] && scale[13] == scale'[13];
      forall k | 0 <= k < 16
        ensures scale[k] == scale'[k]
      {
      }
    }
    var pose := Mul(viewMatrix, Mul(TransMat(tvec), Mul(RotMat(rmat), FlipMat())));
    assert ComputeProjMat(ratio, cameraMatrix, rmat, tvec, viewMatrix)
        == Mul(scale, Mul(PerspMat(cameraMatrix[0]), pose));
    assert ComputeProjMat(ratio, cameraMatrix', rmat, tvec, viewMatrix)
        == Mul(scale, Mul(PerspMat(cameraMatrix[0]), pose));
  }

  /** The 3×3 identity, as a row-major rotation. */
  function Identity3(): Mat3
  {
    [1.0, 0.0, 0.0,
     0.0, 1.0, 0.0,
     0.0, 0.0, 1.0]
  }

  /** With the identity rotation, no translation and the identity view, the
      projection is fixed by the focal length f = cameraMatrix[0] and the
      principal point (cx, cy) = (cameraMatrix[2], cameraMatrix[5]) alone:
      the flip survives in the scaled x, y, z columns, the third column
      picks up the principal point divided by f, and the fourth column is
      zero because the perspective stage drops w. */
  lemma ProjMatAtIdentityPose(ratio: real, cameraMatrix: Mat3)
    requires cameraMatrix[0] != 0.0
    ensures var f := cameraMatrix[0];
      ComputeProjMat(ratio, cameraMatrix, Identity3(), [0.0, 0.0, 0.0], Identity())
      == [ratio, 0.0, 0.0, 0.0,
          0.0, -ratio, 0.0, 0.0,
          -cameraMatrix[2] * ratio / f, -cameraMatrix[5] * ratio / f, -ratio, -1.0 / f,
          0.0, 0.0, 0.0, 0.0]
  {
    var f := cameraMatrix[0];
    var flip := FlipMat();
    assert RotMat(Identity3()) == Identity();
    assert TransMat([0.0, 0.0, 0.0]) == Identity();
    var projMat1 := Mul(Identity(), flip);
    assert projMat1 == flip;
    var projMat2 := Mul(Identity(), projMat1);
    assert projMat2 == flip;
    var projMat3 := Mul(Identity(), projMat2);
    assert projMat3 == flip;
    assert PerspMat(f) == [1.0, 0.0, 0.0, 0.0,
                           0.0, 1.0, 0.0, 0.0,
                           0.0, 0.0, 1.0, 1.0 / f,
                           0.0, 0.0, 0.0, 0.0];
    var projMat4 := Mul(PerspMat(f), projMat3);
    assert projMat4[0] == 1.0 && projMat4[1] == 0.0 && projMat4[2] == 0.0 && projMat4[3] == 0.0;
    assert projMat4[4] == 0.0 && projMat4[5] == -1.0 && projMat4[6] == 0.0 && projMat4[7] == 0.0;
    assert projMat4[8] == 0.0 && projMat4[9] == 0.0 && projMat4[10] == -1.0 && projMat4[11] == -1.0 / f;
    assert projMat4[12] == 0.0 && projMat4[13] == 0.0 && projMat4[14] == 0.0 && projMat4[15] == 0.0;
    assert projMat4 == [1.0, 0.0, 0.0, 0.0,
                        0.0, -1.0, 0.0, 0.0,
                        0.0, 0.0, -1.0, -1.0 / f,
                        0.0, 0.0, 0.0, 0.0];
    var scale := ScaleMat(ratio, cameraMatrix);
    assert scale == [ratio, 0.0, 0.0, 0.0,
                     0.0, ratio, 0.0, 0.0,
                     0.0, 0.0, ratio, 0.0,
                     cameraMatrix[2] * ratio, cameraMatrix[5] * ratio, 0.0, 1.0];
    var r := Mul(scale, projMat4);
    assert r[0] == ratio && r[1] == 0.0 && r[2] == 0.0 && r[3] == 0.0;
    assert r[4] == 0.0 && r[5] == -ratio && r[6] == 0.0 && r[7] == 0.0;
    assert r[8] == -cameraMatrix[2] * ratio / f && r[9] == -cameraMatrix[5] * ratio / f;
    assert r[10] == -ratio && r[11] == -1.0 / f;
    assert r[12] == 0.0 && r[13] == 0.0 && r[14] == 0.0 && r[15] == 0.0;
    assert ComputeProjMat(ratio, cameraMatrix, Identity3(), [0.0, 0.0, 0.0], Identity()) == r;
  }
}
