# Visual verb sense disambiguation, modelled in Dafny

The script `visual_verb_disambiguation.py` evaluates a simple visual verb sense
disambiguation baseline on COCO images. It has three tables:
- caption embeddings per image;
- embeddings of dictionary sense definitions per verb;
- human sense annotations per (image, verb).

For every image and every verb annotated on it, the script scores each
dictionary sense of that verb by the dot product of the caption vector with
the definition vector. It predicts the first sense with the highest score,
checks the prediction against the annotated sense, and reports the share of
correct predictions in percent. A helper, `filter_image_name`, turns a COCO
file name such as `COCO_val2014_000000000042.jpg` into the numeric image
identifier.

The project has four modules:

- `Outcomes` (`outcomes.dfy`): the `Result` and `Option` types. An `Err`
  result stands for a Python exception.
- `ImageNames` (`image_names.dfy`): `filter_image_name`.
  - It checks the two prefixes, strips the prefix and the last four
    characters, then applies `int()`.
  - `int()` is modelled over ASCII text: an optional sign and decimal digits
    with single underscores between them, surrounded by any amount of the
    white space `int()` skips. The skipped characters are the space and `\t`
    to `\r`. The separators `\x1c` to `\x1f` are not skipped, although
    `str.strip()` would remove them.
  - Both `ValueError`s become values of `NameError`: `UnknownPrefix` for the
    `raise` of line 24, and `InvalidLiteral` for a failing `int()`.
- `Disambiguation` (`disambiguation.dfy`): `simple_disambiguation`.
  - The three tables are sequences of records in table order.
  - The scoring and selection steps are pure functions (`Dot`,
    `FilterByLemma`, `Scores`, `ArgMaxFirst`, `Predict`).
  - The whole evaluation is also written as a fold, `Evaluate`. It is the
    specification the imperative method `SimpleDisambiguation` is proved
    against.
  - The method keeps the two counters of `accuracy = [0, 0]` as local
    variables, updated in two nested `for` loops.
  - It returns the counters and the percentage that line 60 prints. When
    Python raises, it returns the matching `EvalError` instead.
- `Scenarios` (`scenarios.dfy`): small worked tables with the results they
  produce.

Where the documentation in the source and the code disagree, the model
follows the code:
- The docstring of `filter_image_name` describes names of the form
  `PREFIX_XXXX.jpeg`. The code cuts exactly four characters, so such a name
  leaves `.` behind and `int()` fails. `FilterRejectsFiveCharExtension`
  states this. Real COCO names end in `.jpg`, for which the cut is right.
- The docstring says `simple_disambiguation` computes cosine similarity. The
  code takes the plain dot product, and so does the model.
- An annotation whose image has no row in the caption table is never
  visited. It is silently skipped, not an error.
- When an (image, verb) pair is annotated twice, both rows are visited, and
  both are judged against the `sense_chosen` of the first such row.

## Model

| member | source | states |
|---|---|---|
| ImageNames.FilterImageName | visual_verb_disambiguation.py:18-24 | a name is accepted only with one of the two COCO prefixes; the `UnknownPrefix` error is raised exactly when neither prefix matches |
| ImageNames.PrefixesExclusive | visual_verb_disambiguation.py:18-23 | no name carries both prefixes, so the order of the two tests does not matter |
| ImageNames.Stem | visual_verb_disambiguation.py:21 | the slice `[start:-4]` is what lies between the prefix and the last four characters, and is empty when fewer than four characters follow the prefix |
| ImageNames.ParseInt | visual_verb_disambiguation.py:21 | `int()` fails only with `InvalidLiteral` |
| ImageNames.ParseIntSurroundingSpace | visual_verb_disambiguation.py:21 | a digit string with a leading space and a trailing newline reads as its decimal value |
| ImageNames.ParseIntRejectsSeparator | visual_verb_disambiguation.py:21 | a leading `\x1c` separator makes `int()` fail |
| ImageNames.ParseIntDigits | visual_verb_disambiguation.py:21 | `int()` of a non-empty digit string is its decimal value |
| ImageNames.ParseIntNegative | visual_verb_disambiguation.py:21 | `int()` of a minus sign followed by digits is the negated decimal value |
| ImageNames.LeadingZerosIgnored | visual_verb_disambiguation.py:21 | leading zeros do not change the value of a digit string |
| ImageNames.ZeroPadded | visual_verb_disambiguation.py:21 | a zero-padded decimal rendering of an identifier is a digit string, at least as wide as asked, whose value is the identifier |
| ImageNames.FilterImageNameRoundTrip | visual_verb_disambiguation.py:18-23 | either prefix, any digit string and any four-character extension give back the value of the digits |
| ImageNames.FileNameRoundTrip | visual_verb_disambiguation.py:18-23 | the identifier of a COCO file name built from split, identifier, padding and extension is that identifier |
| ImageNames.FilterShortName | visual_verb_disambiguation.py:20-23 | a prefixed name with nothing between prefix and extension is rejected as an invalid literal |
| ImageNames.FilterRejectsFiveCharExtension | visual_verb_disambiguation.py:21-23 | a `.jpeg` style extension of five characters makes `int()` fail |
| ImageNames.FilterRejectsSeparator | visual_verb_disambiguation.py:20-23 | a name such as `COCO_train2014_\x1c9.jpg` is rejected as an invalid literal |
| Disambiguation.Dot | visual_verb_disambiguation.py:48 | no contract: the reference definition of `np.dot` as the sum of the products of matching entries; `PredictFirstBest` and `PredictChoosesFirstBest` state the selection in terms of it |
| Disambiguation.Scores | visual_verb_disambiguation.py:48 | no contract: the reference definition of the score array that `apply(np.dot).to_numpy()` builds; `PredictFirstBest` and `PredictChoosesFirstBest` state what the argmax over it selects |
| Disambiguation.FilterByLemma | visual_verb_disambiguation.py:46 | the candidates are exactly the sense rows of the verb, in table order |
| Disambiguation.ArgMaxFirst | visual_verb_disambiguation.py:49 | no index for an empty array; otherwise an index whose element is maximal and strictly greater than every earlier one |
| Disambiguation.Predict | visual_verb_disambiguation.py:46-50 | the `argmax` failure arises exactly when the verb has no senses, the dimension failure exactly when a sense of the verb differs in dimension from the caption, and there is no other failure |
| Disambiguation.PredictFirstBest | visual_verb_disambiguation.py:46-50 | a successful prediction is a sense row of the verb that scores at least as high as every sense of the verb and strictly higher than every earlier one |
| Disambiguation.FirstBestUnique | visual_verb_disambiguation.py:49 | the first-best row is unique: the tie-break settles every choice |
| Disambiguation.PredictChoosesFirstBest | visual_verb_disambiguation.py:46-50 | conversely, when the senses of the verb conform, the first-best row is what is predicted |
| Disambiguation.Verbs | visual_verb_disambiguation.py:42 | a verb is listed for an image exactly when some annotation row pairs them |
| Disambiguation.LabelPositions | visual_verb_disambiguation.py:42 | the positions of the annotation rows of an image, strictly increasing, and every such row among them |
| Disambiguation.VerbsRows | visual_verb_disambiguation.py:42 | the verbs of an image are one entry per annotation row of that image, repeats included: as many as `LabelPositions`, and entry `i` is the verb of row `LabelPositions[i]` |
| Disambiguation.FirstLabel | visual_verb_disambiguation.py:51 | the ground truth comes from the first annotation row of the (image, verb) pair |
| Disambiguation.Truth | visual_verb_disambiguation.py:51 | the ground truth is the `sense_chosen` of an annotation row of the pair that no earlier row of the pair precedes |
| Disambiguation.Bump | visual_verb_disambiguation.py:53-56 | no contract of its own: the reference definition of one counter update; `BumpOneCounter` states what it does |
| Disambiguation.BumpOneCounter | visual_verb_disambiguation.py:53-56 | the sum of the counters grows by one; `correct` grows exactly on a hit and `incorrect` exactly on a miss |
| Disambiguation.Percentage | visual_verb_disambiguation.py:58 | the division fails exactly when no pair was counted; otherwise the accuracy lies between 0 and 100 |
| Disambiguation.PercentageMeaning | visual_verb_disambiguation.py:58 | the accuracy times the pair count is a hundred times the correct count; it is 100 exactly when nothing was wrong and 0 exactly when nothing was right |
| Disambiguation.Evaluate | visual_verb_disambiguation.py:38-58 | the specification fold of the whole evaluation; a successful result has counted at least one pair and its accuracy, between 0 and 100, times the pair count is a hundred times the correct count |
| Disambiguation.SimpleDisambiguation | visual_verb_disambiguation.py:38-58 | the two nested loops with their counters compute exactly the evaluation fold, the counters add up to the number of visited pairs, and the accuracy is between 0 and 100 |
| Disambiguation.PairStepCounts | visual_verb_disambiguation.py:51-56 | each pair bumps exactly one counter, the correct one exactly when the first-best sense number equals the annotated one |
| Disambiguation.FoldVerbsCount | visual_verb_disambiguation.py:44-56 | the inner loop adds the number of verbs of the image to the counters' sum |
| Disambiguation.FoldImagesCount | visual_verb_disambiguation.py:39-56 | the outer loop adds the number of visited pairs to the counters' sum |
| Disambiguation.EvaluateCounts | visual_verb_disambiguation.py:38-56 | a completed run has counted every visited pair exactly once |
| Disambiguation.PairCountDistinct | visual_verb_disambiguation.py:39-44 | with distinct image identifiers, the visited pairs are the annotation rows whose image is in the caption table |
| Disambiguation.EvaluateCountsAnnotations | visual_verb_disambiguation.py:38-56 | with distinct image identifiers, correct plus incorrect is the number of annotation rows whose image is in the caption table |
| Disambiguation.NoLabelsNoPairs | visual_verb_disambiguation.py:42-44 | an empty annotation table gives no pairs |
| Disambiguation.EvaluateNoPairs | visual_verb_disambiguation.py:58 | the run fails with the division error exactly when there is no pair to visit |
| Disambiguation.EvaluateErrors | visual_verb_disambiguation.py:46-50 | every other failure names an image row and an annotated verb whose senses are missing or of the wrong dimension |
| Disambiguation.EvaluateFailsOnUnknownVerb | visual_verb_disambiguation.py:46-49 | a verb annotated on an image row but absent from the sense table makes the run fail |
| Scenarios.TwoSenses | visual_verb_disambiguation.py:48-50 | of two senses of one verb, the first wins unless the second scores strictly higher |
| Scenarios.ImageStep | visual_verb_disambiguation.py:39-56 | an image annotated with one verb scores that pair and goes on with the rest, or stops with the pair's error |
| Scenarios.SingleImage | visual_verb_disambiguation.py:38-58 | one image with one annotation gives 100 percent on a hit, 0 percent on a miss, or the pair's error |
| Scenarios.OneRightOneWrong | visual_verb_disambiguation.py:38-58 | two images, one hit and one miss, give one tick on each counter and 50 percent |
| Scenarios.RunPredictions | visual_verb_disambiguation.py:48-50 | a caption along an axis picks the sense pointing along that axis |
| Scenarios.ScenarioCorrect | visual_verb_disambiguation.py:38-58 | one correctly predicted pair gives 100 percent |
| Scenarios.ScenarioIncorrect | visual_verb_disambiguation.py:38-58 | one wrongly predicted pair gives 0 percent |
| Scenarios.ScenarioHalf | visual_verb_disambiguation.py:38-58 | one right and one wrong pair give 50 percent |
| Scenarios.ScenarioTie | visual_verb_disambiguation.py:49-50 | of two equally scored senses the earlier row is predicted |
| Scenarios.ScenarioUnknownVerb | visual_verb_disambiguation.py:46-49 | a verb without senses stops the run with an error naming the image and the verb |
| Scenarios.ScenarioNoLabels | visual_verb_disambiguation.py:58 | an empty annotation table makes the final division fail |

## Left out

- `main` (lines 63-70) is not modelled. It reads pickled and CSV files and
  filters the annotations to the COCO ones. That is file I/O and pandas
  plumbing.
- The `print` of line 60 is not modelled. The accuracy it prints is returned
  instead, together with the two counters.
- IEEE floating point is not modelled. Embeddings are vectors of reals and
  the accuracy is a real. Rounding, overflow, NaN and infinities in the dot
  products and in the percentage are therefore not captured.
- pandas `query`/`iloc` and numpy `apply`/`to_numpy` are not modelled. They
  become sequence filters and index lookups over sequences of records.
  Positional `iloc` over a table is modelled as its order of rows.
- `ImageNames.ParseInt`: Python's `int()` also accepts non-ASCII Unicode
  digits and white space. The model knows only ASCII digits, and the space
  and `\t` to `\r` as the white space `int()` skips.
- `ImageNames.ParseInt`: does not model the limit on the number of digits of
  a decimal literal. This limit is 4300 digits by default and can be changed
  with `sys.set_int_max_str_digits`. It exists from Python 3.11 on and in the
  3.7.14, 3.8.14, 3.9.14 and 3.10.7 security releases. Those versions raise
  `ValueError` for a longer literal. So `ParseIntDigits`,
  `FilterImageNameRoundTrip` and `FileNameRoundTrip` hold for every length
  in the model, but only up to the limit on those Python versions.
- Identifiers and sense numbers are modelled as integers. A mix of types for
  which pandas `==` would compare differently (a string sense number, say) is
  not modelled.
- `Disambiguation.Dot` is total: on vectors of different lengths it stops at
  the shorter one. It is only applied after `Predict` has checked the
  dimensions, so the numpy error for mismatched lengths is modelled by
  `DimensionMismatch` rather than inside `Dot`.
- `Disambiguation.EvaluateCountsAnnotations` assumes distinct image
  identifiers. With a repeated identifier, the source visits the annotations
  of that image once per row. `PairCount` counts exactly that, so
  `EvaluateCounts` still holds.
