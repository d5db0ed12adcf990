# Image segmentation: dataset pipeline and epoch loops

This project models the core of a U-Net style segmentation trainer in Dafny. The core has two parts.

- **The dataset** (`ImageFolder`). When it is built, it pairs every globbed image path with its mask path. The mask path is the image path with every `<mode>_img` replaced by `<mode>_label`, as Python's `str.replace` does. It then stores one (image, mask) pair per path, in glob order. Its length is `data_num` when that is positive, and otherwise the number of pairs. A fetch picks the pair at `index % len(data_list)`. In training mode, when the draw `p <= augmentation_prob`, the fetch applies one geometric plan to both image and mask:
  - a base rotation from {0, 90, 180, 270};
  - a fine rotation in [-10, 10];
  - one square crop window;
  - a shared horizontal flip draw and a shared vertical flip draw.

  Every fetch then resizes both to 512x512 and converts them to tensors. Only the image is normalised; the mask is cast to integers.
- **The training process** (`train` and `test`). Per epoch, the seven metric sums, the sample count and the loss sum start at zero, and every batch adds its values. At the end, the metric sums are divided by the number of samples and the loss sum by the number of batches. A training batch does, in order: clear gradients, forward pass, loss, backward pass, optimizer step, metric accumulation. An evaluation pass never steps the optimizer. It returns the averaged accuracy and `unet_score = JS + DC`. The run alternates one training epoch and one evaluation pass, `num_epochs` times.

Modules:
- `results.dfy` holds `Results`, the outcome of an operation that Python would abort with an exception.
- `grids.dfy` holds `Grids`: 8-bit grey images as `seq<seq<byte>>`, PIL-style crop with zero padding, flips, and the to-tensor, normalise and integer-cast steps.
- `paths.dfy` holds `Paths`: `str.replace` and the image-to-mask path rule.
- `dataset.dfy` holds `Dataset`: random draws, plans and the `ImageFolder` class.
- `training.dfy` holds `Training`: scores, reports, reference functions for epochs and runs, and the `Session` class, whose methods are the loops.

The randomness of a fetch is a `Draws` record passed in. The imaging library's rotation and resize are the uninterpreted `Ops` functions. The network, loss and metric functions are the uninterpreted `Collaborators` functions. The network's parameters are named by the number of optimizer steps applied so far (`Session.steps`). Everything done to the network and optimizer is recorded in `Session.trace`.

## Model

| member | source | states |
|---|---|---|
| Paths.ReplaceAllNoMatch | new_dataset.py:26 | `str.replace` leaves a string with no occurrence of the pattern unchanged |
| Paths.ReplaceAllFirstMatch | new_dataset.py:26 | when the first occurrence starts right after prefix p, the prefix is kept, that occurrence is replaced, and replacement continues on the rest |
| Paths.ReplaceAll | new_dataset.py:26 | `str.replace` of a non-empty pattern: replacing it by itself changes nothing, a same-length replacement keeps the length, and a longer one never shortens the string |
| Paths.MaskPath | new_dataset.py:20-26 | the mask path is never shorter than the image path, and a path without `<mode>_img` is its own mask path |
| Paths.MaskPathOfGlobbedImage | new_dataset.py:20-26 | for a globbed path `dir + "<mode>_img" + name`, where the directory part has no other occurrence and the name has none, the mask path is `dir + "<mode>_label" + name` |
| Dataset.ImageFolder.constructor | new_dataset.py:12-31 | stores the settings; dataList holds, in glob order, one pair (open(path), open(mask path of path)) per path |
| Dataset.ImageFolder.Length | new_dataset.py:80-85 | data_num when it is positive, otherwise the number of stored pairs; never negative |
| Dataset.ImageFolder.Slot | new_dataset.py:35 | `index % len(data_list)` is always a valid position; it is the index itself when in range, and index - n for n <= index < 2n (data_num larger than the list) |
| Dataset.Augments | new_dataset.py:38-40 | augmentation happens only in training mode; always when the probability is at least 1; never when it is negative; with probability 0 exactly when the draw is 0.0 |
| Dataset.PlanOf | new_dataset.py:41-64 | the base rotation is RotationDegree[k], so one of 0/90/180/270 and equal to 90k; the fine angle and the crop window are the draws; each flip happens iff its draw is below 0.5 |
| Dataset.DrawsInRange | new_dataset.py:38-62 | no contract; the ranges of the draws: `random.random()` in [0, 1), `randint(0, 3)`, `randint(-10, 10)`, `randint(crop_size_min, crop_size_max)` when that range is not empty, `get_params` offsets that keep a fitting window inside the image |
| Dataset.Compose | new_dataset.py:41-51 | `T.Compose` of rotations applies them in list order; when rotation keeps the image size, so does the composition |
| Dataset.ComposeTwo | new_dataset.py:44-51 | the composed rotation list applies the base rotation first and the fine rotation second |
| Dataset.CropFlip | new_dataset.py:53-64 | the crop window followed by the planned flips is a cropLen x cropLen square |
| Dataset.Geometric | new_dataset.py:41-64 | the augmentation of one member of a pair is the composed base-then-fine rotation followed by crop and flips, and yields a cropLen x cropLen square |
| Dataset.CropFlipPixel | new_dataset.py:53-64 | output pixel (r, c) of crop+flips is the input pixel at a position that depends only on the plan, and that position lies inside the input when the window does; so image and mask stay aligned pixel for pixel |
| Dataset.FinishImage | new_dataset.py:68-76 | every image leaves the pipeline as 512x512 with values in [-1, 1] |
| Dataset.FinishMask | new_dataset.py:68-73 | every mask leaves as 512x512, not normalised; a pixel is 1 exactly when its resized value is 255, otherwise 0 |
| Dataset.ImageFolder.GetItem | new_dataset.py:33-78 | empty list fails; otherwise it fails iff it augments and the crop range is empty or the crop exceeds the rotated image; without augmentation the pair gets only the tail; with it, image and mask get the same plan then the tail; results are 512x512 with mask values in {0, 1} |
| Grids.Crop | new_dataset.py:55-56 | `F.crop` yields an h x w window whatever the offsets (the pixels outside the image read as 0) |
| Grids.HFlip | new_dataset.py:58-60 | `F.hflip` keeps the number of rows and each row's length |
| Grids.VFlip | new_dataset.py:62-64 | `F.vflip` keeps the number of rows; output row r has the length of input row h-1-r |
| Grids.ToTensor | new_dataset.py:69-72 | `ToTensor` keeps the shape and maps every 8-bit pixel into [0, 1] |
| Grids.Normalize | new_dataset.py:75-76 | `Normalize((0.5,), (0.5,))` keeps the shape and maps values in [0, 1] into [-1, 1] |
| Grids.ToInt | new_dataset.py:73 | `.int()` keeps the shape of the tensor |
| Grids.HFlipInvolution | new_dataset.py:58-60 | flipping horizontally twice restores the grid |
| Grids.VFlipInvolution | new_dataset.py:62-64 | flipping vertically twice restores the grid |
| Training.Total | train.py:108-114 | no contract; the seven running sums after adding the batches' metrics in order (its properties are TotalAppend, TotalConcat and TotalNonNegative) |
| Training.Sum | train.py:104 | no contract; the running `epoch_loss` after adding the batches' losses in order (its properties are SumAppend and SumNonNegative) |
| Training.TotalAppend | train.py:43-49 | adding one batch's metrics to the running sums gives the sums over one more batch |
| Training.SumAppend | train.py:104 | adding one batch's loss to the running loss sum gives the sum over one more batch |
| Training.TotalNonNegative | train.py:108-114 | when every batch's metrics are non-negative, so are the seven sums |
| Training.SumNonNegative | train.py:104 | when every batch's loss is non-negative, so is `epoch_loss` |
| Training.SamplesSeen | train.py:115 | no contract; `length` after the first k batches, each adding `images.size(0)` |
| Training.SampleCount | train.py:115 | no contract; `length` at the end of an epoch, the sample count over all its batches |
| Training.NoSamplesSeen | train.py:115-117 | `length` is still 0 after k batches exactly when each of those batches held no image, which is when the divisions raise |
| Training.TrainScores | train.py:97-114 | the per-batch metrics of the first k training batches, exactly one entry per batch (entry j is stated by TrainScoresIndex) |
| Training.TrainLosses | train.py:97-104 | the per-batch losses of the first k training batches, exactly one entry per batch (entry j is stated by TrainScoresIndex) |
| Training.TestScores | train.py:37-49 | the per-batch metrics of the first k evaluation batches, exactly one entry per batch (entry j is stated by TestScoresIndex) |
| Training.Average | train.py:117-123 | dividing the sums by `length` succeeds exactly when `length` > 0; otherwise Python raises ZeroDivisionError |
| Training.TrainEpochReport | train.py:79-124 | the reference training report succeeds exactly when the epoch's batches hold a sample |
| Training.TestEpochReport | train.py:21-65 | the reference evaluation report succeeds exactly when the evaluation batches hold a sample |
| Training.TrainScoresIndex | train.py:91-114 | training batch j is scored on the training-mode output with the parameters after steps0 + j optimizer steps; its loss comes from that same output |
| Training.TestScoresIndex | train.py:36-49 | every evaluation batch is scored on the evaluation-mode output with the same parameters |
| Training.AverageScalesBack | train.py:117-123 | multiplying the averaged metrics by the sample count gives back the sums |
| Training.TrainEpochReportMeans | train.py:108-123 | the reported training metrics are the per-batch sums divided by the number of samples |
| Training.TrainEpochLoss | train.py:104-124 | a training epoch with a sample has a batch, and its loss is the sum of per-batch losses divided by the number of batches, not samples |
| Training.TestEpochReportMeans | train.py:43-65 | the evaluation metrics are per-batch sums over the sample count, and unet_score is averaged JS plus averaged DC |
| Training.TotalOfUniform | train.py:108-115 | when every sample scores m, the metric sums are m times the sample count |
| Training.AverageOfUniform | train.py:117-123 | averaging m times n over n samples gives m |
| Training.UniformAverage | train.py:117-123 | the average of an epoch in which every sample scores m is m |
| Training.TestEpochUniform | train.py:43-72 | an evaluation pass in which every sample scores m reports m, with unet_score = m.js + m.dc (2 for a perfect segmentation) |
| Training.TrainEpochUniform | train.py:108-123 | a training epoch in which every sample scores m reports m |
| Training.TotalConcat | train.py:43-49 | the sums over two runs of samples are the sum of their sums |
| Training.EpochSums | train.py:43-50 | when each batch's metrics are the sums over its own samples, the epoch sums are the sums over all samples and the sample count is the number of samples |
| Training.TestEpochPartition | train.py:43-64 | an evaluation pass reports the same however the same samples are split into batches |
| Training.RepeatMembers | train.py:91-115 | an event occurs in n repeated batches iff n > 0 and it occurs in one batch |
| Training.RepeatLength | train.py:91-115 | n repeated batches hold n times the events of one batch |
| Training.RepeatStep | train.py:91-115 | one more batch's events after n repeated batches gives n + 1 repeated batches |
| Training.RepeatIndex | train.py:91-115 | block q of the repeated batches is exactly the batch's event sequence |
| Training.TestNeverSteps | train.py:36-55 | an evaluation pass never clears gradients, back-propagates or steps the optimizer |
| Training.TrainStepOrder | train.py:96-115 | in a training epoch every step is right after zero_grad, forward, loss and backward of its batch, and right before that batch's metrics are accumulated |
| Training.CountConcat | train.py:79-131 | occurrences in a concatenation add up |
| Training.CountRepeat | train.py:91-115 | n repeated batches hold n times the occurrences of one batch |
| Training.SingleCount | train.py:79-131 | a single event occurs once if it is the one counted, otherwise never |
| Training.BatchCounts | train.py:36-115 | a training batch steps once, an evaluation batch never; neither switches mode |
| Training.EpochEventCount | train.py:76-131 | one epoch switches to training mode once, to evaluation mode once, and steps the optimizer once per training batch |
| Training.RunEventsCounts | train.py:79-131 | the first e epochs switch to training mode e times and to evaluation mode e times (exactly one test per epoch), and step once per training batch |
| Training.RunEventsStep | train.py:79-131 | one more epoch appends that epoch's events to the run's trace |
| Training.EpochCount | train.py:79 | `range(num_epochs)` runs num_epochs iterations, and none when num_epochs is 0 or negative |
| Training.StepsBefore | train.py:106 | no contract; the optimizer steps taken by the first e epochs, one per training batch |
| Training.NoStepsBefore | train.py:79-106 | the first e epochs take no optimizer step exactly when none of them has a training batch |
| Training.EpochReport | train.py:90-131 | the reference report of one epoch succeeds exactly when its training batches and the evaluation set each hold a sample |
| Training.Run | train.py:79-131 | the reference run of n epochs, when it goes through, logs exactly n epochs |
| Training.EpochReportParts | train.py:90-131 | an epoch logs exactly the training report of its batches, and then the evaluation report computed with the parameters its training pass left (one step per training batch later) |
| Training.EpochReportSucceeds | train.py:117-131 | an epoch goes through iff its training batches and the evaluation set each hold a sample; otherwise the division by `length` fails |
| Training.RunStep | train.py:79-131 | after n epochs that went through, epoch n starts after all their optimizer steps, and the run either logs its report or ends with its error |
| Training.RunStops | train.py:79-131 | once an epoch has failed, the run ends with that error however many epochs were asked for |
| Training.RunLogs | train.py:79-131 | a run that went through n epochs logged exactly n epochs, and log e is epoch e's report on trainLoader(e), started after the steps of epochs 0..e-1 |
| Training.TrainingSampledAll | train.py:79-123 | the recursive "each of the first n training epochs has a sample" is equivalent to the quantified statement |
| Training.RunGoesThrough | train.py:79-131 | the first n epochs go through iff every one of them has a training sample and, when n > 0, the evaluation set has a sample |
| Training.RunSucceedsExactly | train.py:79-131 | a run of num_epochs epochs (none when negative) succeeds iff no training epoch and not the evaluation set is empty |
| Training.Session.constructor | train.py:75-76 | a fresh session: no steps, training mode, empty trace |
| Training.Session.TrainBatch | train.py:93-115 | one optimizer step; trace gains zero_grad, forward, loss, backward, step, accumulate; metrics and loss are from the output computed before the step |
| Training.Session.TrainEpoch | train.py:79-129 | training mode, one step per batch, trace of one training batch per batch; the result is `TrainEpochReport(c, old(steps), loader)` |
| Training.Session.Test | train.py:21-72 | evaluation mode, no step, trace of forward and accumulate per batch; the result is `TestEpochReport(c, steps, loader)` |
| Training.Session.Epoch | train.py:90-131 | a training epoch then one evaluation pass; the result is `EpochOf(c, testLoader)(old(steps), trainBatches)`; on success the steps and trace are exactly those, and the network is left in evaluation mode (nothing switches it back before the next `model.train()`) |
| Training.Session.Train | train.py:75-131 | the result is `Run(EpochOf(c, testLoader), old(steps), trainLoader, EpochCount(num_epochs))` (so, with the lemmas above, it succeeds iff every training epoch and the evaluation set have a sample, and logs are the epoch reports in order); on success steps and trace are those of the whole run, and the network is left in evaluation mode after at least one epoch and in training mode when no epoch runs |

## Left out

- The network, its forward and backward passes, the Adam optimizer, `binary_cross_entropy_with_logits` and `sigmoid` are uninterpreted functions. The forward pass depends on the number of steps taken and on the mode.
- The metric functions `get_accuracy` … `get_DC` are uninterpreted. They are defined in evaluation.py, which is not part of this model. The partition and uniform lemmas require each batch's metrics to be the sums of its samples' scores.
- Floating point is modelled as exact `real` arithmetic.
- File I/O is modelled as parameters: `glob.glob` becomes the `dataPaths` list and `Image.open` becomes the `open` function. `save_image`, `check_dir` and logger output are left out; for a run that goes through, the logged values are the returned reports.
- Rotation interpolation and `Resize` are uninterpreted. The model relies only on two facts: rotation keeps the image size (no `expand`) and resize gives 512x512.
- Images and masks are single-channel 8-bit grids.
- DataLoader shuffling, batching and workers are left out. The loader's batches per epoch are a parameter (`trainLoader(e)`); the evaluation loader yields the same batches every epoch.
- `main`, `fire`, config parsing, `set_seed`, model selection by `eval`, `get_loader` and the `__main__` demo blocks are left out. They are wiring and scripts.
- `save_checkpoint` and `best_unet_score` are left out: they are defined but never used.
- The `epoch` argument of `test` is left out: it is used only in log text and output file names.
- Dataset.ImageFolder.constructor: requires `crop_size_min >= 1`. Empty or negative crop sides are not modelled.
- Dataset.ImageFolder.GetItem: the "crop larger than the image" error of `RandomCrop.get_params` is modelled as the `CropTooLarge` failure. Its offsets are draws, required to keep the window inside the rotated image.
- Training.Session.TrainEpoch: the `ZeroDivisionError` of an epoch without samples is a `Failure` returned after the loop. The session's steps and trace still hold that epoch's effects, as in Python.
- Training.Session.Epoch: when the epoch fails, the session's steps and trace afterwards are not specified.
- Training.Session.Train: when an epoch fails, the session's steps and trace afterwards are not specified; the returned error is that of the first failing epoch.
- Training.Session.Train: a failing run returns only its error. What Python logged before the failure is not part of the result: the reports of the earlier epochs, and the training report of the failing epoch when only its evaluation pass fails (empty evaluation set).

## Behaviour worth knowing

- The mask goes through the same `Resize` as the image. No nearest-neighbour resampling is chosen for it. The integer cast of `ToTensor`'s x/255 keeps only pixels equal to 255 as 1.
- Augmentation uses `p <= augmentation_prob`, so with probability 0 a draw of exactly 0.0 still augments.
- Crop offsets are drawn for the rotated image, which keeps its size. A crop side larger than that size aborts the fetch.
