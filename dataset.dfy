/**
 * The segmentation dataset: (image, mask) pairs loaded once, and the
 * per-fetch pipeline that optionally applies one random geometric plan to
 * both members of a pair and then brings both to a 512x512 tensor.
 */
module Dataset {
  import opened Results
  import opened Grids
  import Paths

  /** The side of the square every fetched image and mask is resized to. */
  const Side: nat := 512

  /**
   * The imaging-library operations the model does not interpret: rotation by a
   * whole number of degrees (the image keeps its size) and the fixed resize.
   */
  datatype Ops = Ops(rotate: (Grid<byte>, int) -> Grid<byte>, resize: Grid<byte> -> Grid<byte>)

  ghost predicate ValidOps(ops: Ops)
  {
    && (forall g, d :: Height(ops.rotate(g, d)) == Height(g) && Width(ops.rotate(g, d)) == Width(g))
    && (forall g :: HasShape(ops.resize(g), Side, Side))
  }

  /** The random numbers one fetch draws, in the order Python draws them. */
  datatype Draws = Draws(
    p: real,             // decides whether to augment
    rotationIndex: int,  // index of the base rotation
    fineAngle: int,      // the small extra rotation, in degrees
    cropLen: int,        // side of the square crop
    top: int,            // crop offsets chosen for the rotated image
    left: int,
    hflipDraw: real,     // flips when below 0.5
    vflipDraw: real)

  /**
   * The ranges of the draws: uniform reals in [0, 1), integers in Python's
   * inclusive ranges, and a crop offset that keeps the window inside an h-by-w
   * image whenever the window fits at all.
   */
  predicate DrawsInRange(d: Draws, cropSizeMin: int, cropSizeMax: int, h: nat, w: nat)
  {
    && 0.0 <= d.p < 1.0
    && 0 <= d.rotationIndex <= 3
    && -10 <= d.fineAngle <= 10
    && (cropSizeMin <= cropSizeMax ==> cropSizeMin <= d.cropLen <= cropSizeMax)
    && (d.cropLen <= h && d.cropLen <= w ==> 0 <= d.top <= h - d.cropLen && 0 <= d.left <= w - d.cropLen)
    && 0.0 <= d.hflipDraw < 1.0
    && 0.0 <= d.vflipDraw < 1.0
  }

  /** The four base rotations the dataset chooses from. */
  const RotationDegrees: seq<int> := [0, 90, 180, 270]

  /** Whether a fetch augments: only in training mode, and only when the draw does not exceed the probability. */
  function Augments(mode: string, p: real, augmentationProb: real): (a: bool)
    ensures a ==> mode == "train"
    ensures mode == "train" && 0.0 <= p < 1.0 && 1.0 <= augmentationProb ==> a
    ensures augmentationProb < 0.0 && 0.0 <= p ==> !a
    ensures mode == "train" && augmentationProb == 0.0 && 0.0 <= p ==> (a <==> p == 0.0)
  {
    mode == "train" && p <= augmentationProb
  }

  /** The geometric plan of one augmented fetch, shared by the image and its mask. */
  datatype Plan = Plan(baseDegrees: int, fineDegrees: int, cropLen: nat, top: nat, left: nat, hflip: bool, vflip: bool)

  function PlanOf(d: Draws): (plan: Plan)
    requires 0 <= d.rotationIndex <= 3 && 0 <= d.cropLen && 0 <= d.top && 0 <= d.left
    ensures plan.baseDegrees in {0, 90, 180, 270} && plan.baseDegrees == 90 * d.rotationIndex
    ensures plan.fineDegrees == d.fineAngle && plan.cropLen == d.cropLen
    ensures plan.top == d.top && plan.left == d.left
    ensures plan.hflip <==> d.hflipDraw < 0.5
    ensures plan.vflip <==> d.vflipDraw < 0.5
  {
    Plan(RotationDegrees[d.rotationIndex], d.fineAngle, d.cropLen, d.top, d.left, d.hflipDraw < 0.5, d.vflipDraw < 0.5)
  }

  lemma RotateKeepsSize(ops: Ops, g: Grid<byte>, degrees: int)
    requires ValidOps(ops)
    ensures Height(ops.rotate(g, degrees)) == Height(g) && Width(ops.rotate(g, degrees)) == Width(g)
  {
  }

  /** A list of rotations composed in order: the first one is applied first. */
  function Compose(ops: Ops, degrees: seq<int>, g: Grid<byte>): (out: Grid<byte>)
    ensures ValidOps(ops) ==> Height(out) == Height(g) && Width(out) == Width(g)
    decreases |degrees|
  {
    if degrees == [] then g
    else
      var next := ops.rotate(g, degrees[0]);
      assert ValidOps(ops) ==> Height(next) == Height(g) && Width(next) == Width(g) by {
        if ValidOps(ops) {
          RotateKeepsSize(ops, g, degrees[0]);
        }
      }
      Compose(ops, degrees[1..], next)
  }

  /** Composing two rotations applies them one after the other, the first first. */
  lemma ComposeTwo(ops: Ops, first: int, second: int, g: Grid<byte>)
    ensures Compose(ops, [first, second], g) == ops.rotate(ops.rotate(g, first), second)
  {
    var once := ops.rotate(g, first);
    assert [first, second][1..] == [second];
    assert Compose(ops, [first, second], g) == Compose(ops, [second], once);
    assert [second][1..] == [];
    assert Compose(ops, [second], once) == Compose(ops, [], ops.rotate(once, second));
  }

  /** The crop window, then the horizontal flip if planned, then the vertical flip if planned. */
  function CropFlip(g: Grid<byte>, plan: Plan): (out: Grid<byte>)
    ensures HasShape(out, plan.cropLen, plan.cropLen)
  {
    var cropped := Crop(g, plan.top, plan.left, plan.cropLen, plan.cropLen);
    var flipped := if plan.hflip then HFlip(cropped) else cropped;
    if plan.vflip then VFlip(flipped) else flipped
  }

  /** Rotate by the base angle, then by the fine angle, then crop and flip. */
  function Geometric(ops: Ops, g: Grid<byte>, plan: Plan): (out: Grid<byte>)
    ensures out == CropFlip(Compose(ops, [plan.baseDegrees, plan.fineDegrees], g), plan)
    ensures HasShape(out, plan.cropLen, plan.cropLen)
  {
    ComposeTwo(ops, plan.baseDegrees, plan.fineDegrees, g);
    CropFlip(ops.rotate(ops.rotate(g, plan.baseDegrees), plan.fineDegrees), plan)
  }

  /** The row and column of the (rotated) input that output pixel (r, c) of CropFlip comes from. */
  function SourceRow(plan: Plan, r: int): int { plan.top + (if plan.vflip then plan.cropLen - 1 - r else r) }

  function SourceCol(plan: Plan, c: int): int { plan.left + (if plan.hflip then plan.cropLen - 1 - c else c) }

  /**
   * Pixel correspondence: every output pixel of CropFlip is the input pixel at a
   * position that depends only on the plan, never on the grid, so an image and
   * its mask transformed with one plan stay aligned pixel for pixel. When the
   * window lies inside the input, the position is inside it too.
   */
  lemma CropFlipPixel(g: Grid<byte>, plan: Plan, r: int, c: int)
    requires 0 <= r < plan.cropLen && 0 <= c < plan.cropLen
    ensures CropFlip(g, plan)[r][c] == PixelAt(g, SourceRow(plan, r), SourceCol(plan, c))
    ensures plan.top + plan.cropLen <= Height(g) ==> 0 <= SourceRow(plan, r) < Height(g)
    ensures plan.left + plan.cropLen <= Width(g) ==> 0 <= SourceCol(plan, c) < Width(g)
  {
    var L := plan.cropLen;
    var cropped := Crop(g, plan.top, plan.left, L, L);
    var flipped := if plan.hflip then HFlip(cropped) else cropped;
    var cc := if plan.hflip then L - 1 - c else c;
    var rr := if plan.vflip then L - 1 - r else r;
    assert flipped[rr][c] == cropped[rr][cc];
    assert CropFlip(g, plan)[r][c] == flipped[rr][c];
  }

  /** The tail every image goes through: resize, to tensor, normalise. */
  function FinishImage(ops: Ops, g: Grid<byte>): (t: Grid<real>)
    requires ValidOps(ops)
    ensures HasShape(t, Side, Side)
    ensures forall r, c :: 0 <= r < Side && 0 <= c < Side ==> -1.0 <= t[r][c] <= 1.0
  {
    Normalize(ToTensor(ops.resize(g)))
  }

  /**
   * The tail every mask goes through: the same resize and to-tensor, then the
   * integer cast, never normalisation. A mask pixel survives as 1 exactly when
   * the resized pixel is 255; every other value becomes 0.
   */
  function FinishMask(ops: Ops, g: Grid<byte>): (m: Grid<int>)
    requires ValidOps(ops)
    ensures HasShape(m, Side, Side)
    ensures forall r, c :: 0 <= r < Side && 0 <= c < Side ==>
              m[r][c] == (if ops.resize(g)[r][c] == 255 then 1 else 0)
  {
    var m := ToInt(ToTensor(ops.resize(g)));
    assert forall r, c :: 0 <= r < Side && 0 <= c < Side ==>
             m[r][c] == Truncate(ops.resize(g)[r][c] as real / 255.0);
    m
  }

  datatype DataError =
    | EmptyDataset     // the index is reduced modulo the number of pairs, which is zero
    | EmptyCropRange   // crop_size_min > crop_size_max: the crop side cannot be drawn
    | CropTooLarge     // the crop side exceeds the rotated image's height or width

  class ImageFolder {
    const root: string
    const mode: string
    const augmentationProb: real
    const cropSizeMin: int
    const cropSizeMax: int
    const dataNum: int
    const RotationDegree: seq<int> := RotationDegrees
    /** One (image, mask) pair per globbed image, in glob order. */
    var dataList: seq<(Grid<byte>, Grid<byte>)>

    ghost predicate Valid()
    {
      1 <= cropSizeMin
    }

    /**
     * `dataPaths` is what the glob for the PNG files in "<root>/new_<mode>_set/<mode>_img"
     * returns; `open` decodes the file at a path.
     */
    constructor (root: string, mode: string, augmentationProb: real, cropSizeMin: int, cropSizeMax: int,
                 dataNum: int, dataPaths: seq<string>, open: string -> Grid<byte>)
      requires 1 <= cropSizeMin
      ensures Valid()
      ensures this.root == root && this.mode == mode && this.augmentationProb == augmentationProb
      ensures this.cropSizeMin == cropSizeMin && this.cropSizeMax == cropSizeMax && this.dataNum == dataNum
      ensures |dataList| == |dataPaths|
      ensures forall k :: 0 <= k < |dataPaths| ==>
                dataList[k] == (open(dataPaths[k]), open(Paths.MaskPath(dataPaths[k], mode)))
    {
      this.root := root;
      this.cropSizeMin := cropSizeMin;
      this.cropSizeMax := cropSizeMax;
      this.dataNum := dataNum;
      this.mode := mode;
      this.augmentationProb := augmentationProb;
      new;
      var dataDirName := Paths.ImageDir(mode);
      var labelDirName := Paths.LabelDir(mode);
      dataList := [];
      for k := 0 to |dataPaths|
        invariant |dataList| == k
        invariant forall i :: 0 <= i < k ==>
                    dataList[i] == (open(dataPaths[i]), open(Paths.MaskPath(dataPaths[i], mode)))
      {
        var labelPath := Paths.ReplaceAll(dataPaths[k], dataDirName, labelDirName);
        dataList := dataList + [(open(dataPaths[k]), open(labelPath))];
      }
    }

    /** The number of samples: data_num when it is positive, otherwise the number of pairs. */
    function Length(): (n: int)
      reads this
      ensures n >= 0
      ensures dataNum > 0 ==> n == dataNum
      ensures dataNum <= 0 ==> n == |dataList|
    {
      if dataNum > 0 then dataNum else |dataList|
    }

    /** Python's `index % len(data_list)`: any index lands on a stored pair. */
    function Slot(index: int): (k: nat)
      reads this
      requires |dataList| > 0
      ensures k < |dataList|
      ensures 0 <= index < |dataList| ==> k == index
      ensures |dataList| <= index < 2 * |dataList| ==> k == index - |dataList|
    {
      index % |dataList|
    }

    /**
     * One fetch. The pair at index modulo the number of pairs is either left as
     * it is or, when the fetch augments, rotated, cropped and flipped with ONE
     * plan; both then go through the same resize and tensor tail, and only the
     * image is normalised.
     */
    method GetItem(ops: Ops, index: int, d: Draws) returns (r: Result<(Grid<real>, Grid<int>), DataError>)
      requires Valid() && ValidOps(ops)
      requires |dataList| > 0 ==>
                 DrawsInRange(d, cropSizeMin, cropSizeMax, Height(dataList[Slot(index)].0), Width(dataList[Slot(index)].0))
      ensures |dataList| == 0 ==> r == Failure(EmptyDataset)
      ensures |dataList| > 0 ==>
        var (image, gt) := dataList[Slot(index)];
        && (r.Failure? <==> Augments(mode, d.p, augmentationProb) &&
                              (cropSizeMax < cropSizeMin || d.cropLen > Height(image) || d.cropLen > Width(image)))
        && (r.Failure? ==> r.error == (if cropSizeMax < cropSizeMin then EmptyCropRange else CropTooLarge))
        && (r.Success? && !Augments(mode, d.p, augmentationProb) ==>
              r.value == (FinishImage(ops, image), FinishMask(ops, gt)))
        && (r.Success? && Augments(mode, d.p, augmentationProb) ==>
              var plan := PlanOf(d);
              r.value == (FinishImage(ops, Geometric(ops, image, plan)), FinishMask(ops, Geometric(ops, gt, plan))))
      ensures r.Success? ==> HasShape(r.value.0, Side, Side) && HasShape(r.value.1, Side, Side)
      ensures r.Success? ==> forall i, j :: 0 <= i < Side && 0 <= j < Side ==> r.value.1[i][j] in {0, 1}
    {
      if |dataList| == 0 {
        return Failure(EmptyDataset);
      }
      var image, gt := dataList[Slot(index)].0, dataList[Slot(index)].1;
      ghost var storedImage, storedGt := image, gt;

      var transform: seq<int> := [];
      var pTransform := d.p;
      if mode == "train" && pTransform <= augmentationProb {
        var rotationDegree := RotationDegree[d.rotationIndex];
        transform := transform + [rotationDegree];
        var rotationRange := d.fineAngle;
        transform := transform + [rotationRange];
        ComposeTwo(ops, rotationDegree, rotationRange, image);
        ComposeTwo(ops, rotationDegree, rotationRange, gt);
        image := Compose(ops, transform, image);
        gt := Compose(ops, transform, gt);

        if cropSizeMax < cropSizeMin {
          return Failure(EmptyCropRange);
        }
        var cropLen := d.cropLen;
        if Height(image) < cropLen || Width(image) < cropLen {
          return Failure(CropTooLarge);
        }
        var i, j, h, w := d.top, d.left, cropLen, cropLen;
        image := Crop(image, i, j, h, w);
        gt := Crop(gt, i, j, h, w);

        if d.hflipDraw < 0.5 {
          image := HFlip(image);
          gt := HFlip(gt);
        }
        if d.vflipDraw < 0.5 {
          image := VFlip(image);
          gt := VFlip(gt);
        }
      }

      var imageTensor := ToTensor(ops.resize(image));
      var gtTensor := ToInt(ToTensor(ops.resize(gt)));
      imageTensor := Normalize(imageTensor);
      assert imageTensor == FinishImage(ops, image);
      assert gtTensor == FinishMask(ops, gt);
      return Success((imageTensor, gtTensor));
    }
  }

}
