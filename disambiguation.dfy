/**
 * The evaluation loop `simple_disambiguation`: for every image and every verb
 * annotated on it, score each dictionary sense of that verb by the dot product
 * of the caption embedding with the definition embedding, predict the first
 * sense with the highest score, and count whether the prediction matches the
 * annotated sense. The result is the share of correct predictions in percent.
 *
 * The three pandas tables become sequences of records in table order; the
 * floating-point embeddings become vectors of reals.
 */
module Disambiguation {
  import opened Outcomes

  type Vector = seq<real>

  /** A row of the caption table: the image identifier (its index) and the caption embedding. */
  datatype Image = Image(id: int, caption: Vector)

  /** A row of the sense table: `lemma`, `sense_num`, `definition`. */
  datatype Sense = Sense(verb: string, senseNum: int, definition: Vector)

  /** A row of the annotation table: `image`, `lemma`, `sense_chosen`. */
  datatype Label = Label(image: int, verb: string, senseChosen: int)

  /** The ways the evaluation stops early; each is an exception in Python. */
  datatype EvalError =
    | EmptyCandidateSet(image: int, verb: string)  // np.argmax of an empty array
    | DimensionMismatch(image: int, verb: string)  // np.dot of vectors of different lengths
    | NoEvaluatedPairs                              // the final division by zero

  /** The two counters `accuracy[0]` (wrong predictions) and `accuracy[1]` (right ones). */
  datatype Tally = Tally(incorrect: nat, correct: nat)
  {
    function Total(): nat { incorrect + correct }
  }

  /** What the routine reports: the final counters and the percentage. */
  datatype Report = Report(tally: Tally, accuracy: real)

  // ---------------------------------------------------------------------------
  // Scoring and selection (lines 46-50)

  /**
   * The dot product. np.dot refuses vectors of different lengths; callers
   * check the lengths first, so the shorter-vector case never arises for them.
   */
  function Dot(u: Vector, v: Vector): real
  {
    if u == [] || v == [] then 0.0 else u[0] * v[0] + Dot(u[1..], v[1..])
  }

  /** Positions in the sense table of the rows whose lemma is `verb`, ascending. */
  ghost function Positions(senses: seq<Sense>, verb: string): (p: seq<nat>)
    ensures forall i :: 0 <= i < |p| ==> p[i] < |senses| && senses[p[i]].verb == verb
    ensures forall i, j :: 0 <= i < j < |p| ==> p[i] < p[j]
    ensures forall k :: 0 <= k < |senses| && senses[k].verb == verb ==> k in p
  {
    if senses == [] then []
    else
      var n := |senses| - 1;
      Positions(senses[..n], verb) + (if senses[n].verb == verb then [n] else [])
  }

  /** `senses.query('lemma == @verb')`: the rows with that lemma, in table order. */
  function FilterByLemma(senses: seq<Sense>, verb: string): (r: seq<Sense>)
    ensures |r| == |Positions(senses, verb)|
    ensures forall i :: 0 <= i < |r| ==> r[i] == senses[Positions(senses, verb)[i]]
  {
    if senses == [] then []
    else
      var n := |senses| - 1;
      FilterByLemma(senses[..n], verb) + (if senses[n].verb == verb then [senses[n]] else [])
  }

  /** Every candidate's definition has the caption's dimension. */
  predicate Conformant(caption: Vector, candidates: seq<Sense>)
  {
    forall i :: 0 <= i < |candidates| ==> |candidates[i].definition| == |caption|
  }

  /** The score of each candidate, in candidate order. */
  function Scores(caption: Vector, candidates: seq<Sense>): seq<real>
  {
    seq(|candidates|, i requires 0 <= i < |candidates| => Dot(caption, candidates[i].definition))
  }

  /** `np.argmax`: the first index of a maximal element; none for an empty array. */
  function ArgMaxFirst(xs: seq<real>): (r: Option<nat>)
    ensures r.None? <==> xs == []
    ensures r.Some? ==> r.value < |xs|
    ensures r.Some? ==> forall i :: 0 <= i < |xs| ==> xs[i] <= xs[r.value]
    ensures r.Some? ==> forall i :: 0 <= i < r.value ==> xs[i] < xs[r.value]
  {
    if xs == [] then None
    else
      var n := |xs| - 1;
      match ArgMaxFirst(xs[..n])
      case None => Some(0)
      case Some(k) => if xs[k] < xs[n] then Some(n) else Some(k)
  }

  /** Every sense of `verb` has the caption's dimension. */
  ghost predicate SensesConform(caption: Vector, senses: seq<Sense>, verb: string)
  {
    forall j :: 0 <= j < |senses| && senses[j].verb == verb ==> |senses[j].definition| == |caption|
  }

  ghost predicate HasSense(senses: seq<Sense>, verb: string)
  {
    exists j :: 0 <= j < |senses| && senses[j].verb == verb
  }

  /**
   * Row `k` of the sense table is a sense of `verb` whose score is at least
   * that of every sense of `verb`, and strictly above that of every earlier one.
   */
  ghost predicate FirstBest(caption: Vector, senses: seq<Sense>, verb: string, k: int)
  {
    && 0 <= k < |senses|
    && senses[k].verb == verb
    && (forall j :: 0 <= j < |senses| && senses[j].verb == verb ==>
          Dot(caption, senses[j].definition) <= Dot(caption, senses[k].definition))
    && (forall j :: 0 <= j < k && senses[j].verb == verb ==>
          Dot(caption, senses[j].definition) < Dot(caption, senses[k].definition))
  }

  /**
   * The sense row predicted for one verb of image `image` (lines 46-50):
   * filter the senses by lemma, score them, take the first best.
   */
  function Predict(caption: Vector, senses: seq<Sense>, verb: string, image: int): (r: Result<Sense, EvalError>)
    ensures r == Err(EmptyCandidateSet(image, verb)) <==> !HasSense(senses, verb)
    ensures r == Err(DimensionMismatch(image, verb)) <==> !SensesConform(caption, senses, verb)
    ensures r.Ok? || r == Err(EmptyCandidateSet(image, verb)) || r == Err(DimensionMismatch(image, verb))
  {
    var candidates := FilterByLemma(senses, verb);
    if !Conformant(caption, candidates) then Err(DimensionMismatch(image, verb))
    else
      match ArgMaxFirst(Scores(caption, candidates))
      case None => Err(EmptyCandidateSet(image, verb))
      case Some(k) => Ok(candidates[k])
  }

  // ---------------------------------------------------------------------------
  // Label lookups (lines 42 and 51)

  ghost predicate HasLabel(labels: seq<Label>, image: int, verb: string)
  {
    exists i :: 0 <= i < |labels| && labels[i].image == image && labels[i].verb == verb
  }

  /**
   * Positions in the annotation table of the rows about `image`, ascending.
   * It is `Positions` for the other table and the other column, and is
   * deliberately written the same way: each table gets its own function over
   * its own record type, so that no predicate needs to be passed in.
   */
  ghost function LabelPositions(labels: seq<Label>, image: int): (p: seq<nat>)
    ensures forall i :: 0 <= i < |p| ==> p[i] < |labels| && labels[p[i]].image == image
    ensures forall i, j :: 0 <= i < j < |p| ==> p[i] < p[j]
    ensures forall k :: 0 <= k < |labels| && labels[k].image == image ==> k in p
  {
    if labels == [] then []
    else
      var n := |labels| - 1;
      LabelPositions(labels[..n], image) + (if labels[n].image == image then [n] else [])
  }

  /**
   * `labels.query('image == @image_id')['lemma']`: one entry per annotation row
   * of the image, in table order, so a verb annotated twice comes twice.
   */
  function Verbs(labels: seq<Label>, image: int): (vs: seq<string>)
    ensures forall v :: v in vs <==> HasLabel(labels, image, v)
  {
    if labels == [] then []
    else
      var n := |labels| - 1;
      var init := Verbs(labels[..n], image);
      var last := if labels[n].image == image then [labels[n].verb] else [];
      assert forall v :: v in init + last <==> HasLabel(labels, image, v) by {
        forall v ensures v in init + last <==> HasLabel(labels, image, v) {
          if v in init {
            var i :| 0 <= i < n && labels[..n][i].image == image && labels[..n][i].verb == v;
            assert labels[i] == labels[..n][i];
          }
          if HasLabel(labels, image, v) {
            var i :| 0 <= i < |labels| && labels[i].image == image && labels[i].verb == v;
            if i < n {
              assert labels[..n][i] == labels[i];
              assert v in init;
            } else {
              assert v in last;
            }
          }
        }
      }
      init + last
  }

  /**
   * The verbs of an image are the `lemma` column of its annotation rows, row by
   * row in table order: one entry per row, repeats included.
   */
  lemma {:induction false} VerbsRows(labels: seq<Label>, image: int)
    ensures |Verbs(labels, image)| == |LabelPositions(labels, image)|
    ensures forall i :: 0 <= i < |Verbs(labels, image)| ==>
              Verbs(labels, image)[i] == labels[LabelPositions(labels, image)[i]].verb
  {
    if labels != [] {
      var n := |labels| - 1;
      var init := labels[..n];
      VerbsRows(init, image);
      var vs, p := Verbs(labels, image), LabelPositions(labels, image);
      var vs', p' := Verbs(init, image), LabelPositions(init, image);
      assert |vs| == |p|;
      forall i | 0 <= i < |vs|
        ensures vs[i] == labels[p[i]].verb
      {
        if i < |p'| {
          assert vs[i] == vs'[i] && p[i] == p'[i];
          assert init[p'[i]] == labels[p'[i]];
        }
      }
    }
  }

  /** The index of the first annotation of `verb` on `image`. */
  function FirstLabel(labels: seq<Label>, image: int, verb: string): (k: nat)
    requires HasLabel(labels, image, verb)
    ensures k < |labels| && labels[k].image == image && labels[k].verb == verb
    ensures forall i :: 0 <= i < k ==> !(labels[i].image == image && labels[i].verb == verb)
  {
    if labels[0].image == image && labels[0].verb == verb then 0
    else
      var i :| 0 <= i < |labels| && labels[i].image == image && labels[i].verb == verb;
      assert labels[1..][i - 1] == labels[i];
      1 + FirstLabel(labels[1..], image, verb)
  }

  /** The ground truth of line 51: `sense_chosen` of the first annotation of (image, verb). */
  function Truth(labels: seq<Label>, image: int, verb: string): (c: int)
    requires HasLabel(labels, image, verb)
    ensures exists k :: 0 <= k < |labels| && labels[k].image == image && labels[k].verb == verb &&
              labels[k].senseChosen == c &&
              forall i :: 0 <= i < k ==> !(labels[i].image == image && labels[i].verb == verb)
  {
    labels[FirstLabel(labels, image, verb)].senseChosen
  }

  // ---------------------------------------------------------------------------
  // The evaluation as a function: the specification of the loop below

  /** Lines 53-56: bump `accuracy[1]` on a hit, `accuracy[0]` otherwise. */
  function Bump(t: Tally, hit: bool): Tally
  {
    if hit then Tally(t.incorrect, t.correct + 1) else Tally(t.incorrect + 1, t.correct)
  }

  /** Lines 53-56 move exactly one counter by one: `correct` on a hit, `incorrect` otherwise. */
  lemma BumpOneCounter(t: Tally, hit: bool)
    ensures Bump(t, hit).Total() == t.Total() + 1
    ensures Bump(t, hit).correct == t.correct + 1 <==> hit
    ensures Bump(t, hit).incorrect == t.incorrect + 1 <==> !hit
  {
  }

  /** One (image, verb) pair: predict, compare with the ground truth, bump one counter (lines 45-56). */
  function PairStep(t: Tally, caption: Vector, image: int, verb: string, senses: seq<Sense>, labels: seq<Label>): Result<Tally, EvalError>
    requires HasLabel(labels, image, verb)
  {
    match Predict(caption, senses, verb, image)
    case Err(e) => Err(e)
    case Ok(s) => Ok(Bump(t, s.senseNum == Truth(labels, image, verb)))
  }

  /** The inner loop over the verbs of one image, stopping at the first error. */
  function FoldVerbs(t: Tally, caption: Vector, image: int, verbs: seq<string>, senses: seq<Sense>, labels: seq<Label>): Result<Tally, EvalError>
    requires forall v :: v in verbs ==> HasLabel(labels, image, v)
    decreases |verbs|
  {
    if verbs == [] then Ok(t)
    else
      match PairStep(t, caption, image, verbs[0], senses, labels)
      case Err(e) => Err(e)
      case Ok(t') => FoldVerbs(t', caption, image, verbs[1..], senses, labels)
  }

  /** Continue with the remaining images from an intermediate outcome. */
  function Resume(r: Result<Tally, EvalError>, images: seq<Image>, senses: seq<Sense>, labels: seq<Label>): Result<Tally, EvalError>
    decreases images, 1
  {
    match r
    case Err(e) => Err(e)
    case Ok(t) => FoldImages(t, images, senses, labels)
  }

  /** The outer loop over the caption table (line 39). */
  function FoldImages(t: Tally, images: seq<Image>, senses: seq<Sense>, labels: seq<Label>): Result<Tally, EvalError>
    decreases images, 0
  {
    if images == [] then Ok(t)
    else
      var im := images[0];
      Resume(FoldVerbs(t, im.caption, im.id, Verbs(labels, im.id), senses, labels), images[1..], senses, labels)
  }

  /** Line 58: the share of correct predictions in percent; undefined for no pairs. */
  function Percentage(t: Tally): (r: Result<real, EvalError>)
    ensures r.Err? <==> t.Total() == 0
    ensures r.Err? ==> r.error == NoEvaluatedPairs
    ensures r.Ok? ==> 0.0 <= r.value <= 100.0
  {
    if t.Total() == 0 then Err(NoEvaluatedPairs)
    else
      var share := t.correct as real / t.Total() as real;
      ShareBounds(t.correct as real, t.Total() as real);
      Ok(share * 100.0)
  }

  /** A part of a positive whole is a share between 0 and 1. */
  lemma ShareBounds(part: real, whole: real)
    requires 0.0 <= part <= whole && whole > 0.0
    ensures 0.0 <= part / whole <= 1.0
  {
    var share := part / whole;
    assert share * whole == part;
  }

  /**
   * The percentage is the one number that scales the pair count to a hundred
   * times the correct count; it is 100 exactly when nothing was wrong and 0
   * exactly when nothing was right.
   */
  lemma PercentageMeaning(t: Tally)
    requires t.Total() > 0
    ensures Percentage(t).value * (t.Total() as real) == (t.correct as real) * 100.0
    ensures Percentage(t).value == 100.0 <==> t.incorrect == 0
    ensures Percentage(t).value == 0.0 <==> t.correct == 0
  {
    var total := t.Total() as real;
    var share := t.correct as real / total;
    assert share * total == t.correct as real;
    assert share == 1.0 <==> t.correct as real == total;
  }

  /** The whole evaluation: both loops from zeroed counters, then the percentage. */
  function Evaluate(images: seq<Image>, senses: seq<Sense>, labels: seq<Label>): (r: Result<Report, EvalError>)
    ensures r.Ok? ==> r.value.tally.Total() > 0 && 0.0 <= r.value.accuracy <= 100.0
    ensures r.Ok? ==> r.value.accuracy * (r.value.tally.Total() as real) == (r.value.tally.correct as real) * 100.0
  {
    match FoldImages(Tally(0, 0), images, senses, labels)
    case Err(e) => Err(e)
    case Ok(t) =>
      match Percentage(t)
      case Err(e) => Err(e)
      case Ok(a) => PercentageMeaning(t); Ok(Report(t, a))
  }

  /** The number of (image row, annotation) pairs the loops visit. */
  function PairCount(images: seq<Image>, labels: seq<Label>): nat
  {
    if images == [] then 0 else |Verbs(labels, images[0].id)| + PairCount(images[1..], labels)
  }

  // ---------------------------------------------------------------------------
  // simple_disambiguation

  /**
   * The evaluation loop: the two counters start at zero, each (image, verb)
   * pair bumps one of them, and the first failing pair stops the run.
   */
  method SimpleDisambiguation(images: seq<Image>, senses: seq<Sense>, labels: seq<Label>) returns (r: Result<Report, EvalError>)
    ensures r == Evaluate(images, senses, labels)
    ensures r.Ok? ==> r.value.tally.Total() == PairCount(images, labels)
    ensures r.Ok? ==> 0.0 <= r.value.accuracy <= 100.0
  {
    var incorrect, correct := 0, 0;
    for i := 0 to |images|
      invariant FoldImages(Tally(0, 0), images, senses, labels)
             == FoldImages(Tally(incorrect, correct), images[i..], senses, labels)
    {
      var caption, id := images[i].caption, images[i].id;
      var verbs := Verbs(labels, id);
      assert images[i..][1..] == images[i + 1..];
      for j := 0 to |verbs|
        invariant FoldImages(Tally(0, 0), images, senses, labels)
               == Resume(FoldVerbs(Tally(incorrect, correct), caption, id, verbs[j..], senses, labels),
                         images[i + 1..], senses, labels)
      {
        var verb := verbs[j];
        ghost var before := Tally(incorrect, correct);
        var predicted := Predict(caption, senses, verb, id);
        if predicted.Err? {
          FoldVerbsAt(before, caption, id, verbs, j, senses, labels);
          return Err(predicted.error);
        }
        var senseId := Truth(labels, id, verb);
        if senseId == predicted.value.senseNum {
          correct := correct + 1;
        } else {
          incorrect := incorrect + 1;
        }
        FoldVerbsAt(before, caption, id, verbs, j, senses, labels);
        assert Tally(incorrect, correct) == Bump(before, predicted.value.senseNum == senseId);
      }
    }
    var tally := Tally(incorrect, correct);
    FoldImagesCount(Tally(0, 0), images, senses, labels);
    match Percentage(tally)
    case Err(e) => r := Err(e);
    case Ok(a) => r := Ok(Report(tally, a));
  }

  /** One turn of the inner loop: the fold from verb `j` is a pair step, then the fold from `j + 1`. */
  lemma FoldVerbsAt(t: Tally, caption: Vector, image: int, verbs: seq<string>, j: nat, senses: seq<Sense>, labels: seq<Label>)
    requires j < |verbs|
    requires forall v :: v in verbs ==> HasLabel(labels, image, v)
    ensures FoldVerbs(t, caption, image, verbs[j..], senses, labels) ==
              match Predict(caption, senses, verbs[j], image)
              case Err(e) => Err(e)
              case Ok(s) => FoldVerbs(Bump(t, s.senseNum == Truth(labels, image, verbs[j])), caption, image, verbs[j + 1..], senses, labels)
  {
    assert verbs[j..][0] == verbs[j] && verbs[j..][1..] == verbs[j + 1..];
  }

  // ---------------------------------------------------------------------------
  // Properties of the prediction

  /** The predicted row is the first sense of the verb with the highest score. */
  lemma PredictFirstBest(caption: Vector, senses: seq<Sense>, verb: string, image: int)
    requires Predict(caption, senses, verb, image).Ok?
    ensures exists k :: FirstBest(caption, senses, verb, k) && senses[k] == Predict(caption, senses, verb, image).value
  {
    var candidates := FilterByLemma(senses, verb);
    var p := Positions(senses, verb);
    var xs := Scores(caption, candidates);
    var m := ArgMaxFirst(xs).value;
    var k := p[m];
    assert candidates[m] == senses[k];
    forall j | 0 <= j < |senses| && senses[j].verb == verb
      ensures Dot(caption, senses[j].definition) <= Dot(caption, senses[k].definition)
      ensures j < k ==> Dot(caption, senses[j].definition) < Dot(caption, senses[k].definition)
    {
      var i := PositionOf(senses, verb, j);
      assert candidates[i] == senses[j];
      assert xs[i] == Dot(caption, senses[j].definition);
      if j < k {
        PositionsOrder(senses, verb, i, m);
      }
    }
    assert FirstBest(caption, senses, verb, k);
  }

  /** Every sense of `verb` has a place among the candidates. */
  lemma PositionOf(senses: seq<Sense>, verb: string, j: int) returns (i: nat)
    requires 0 <= j < |senses| && senses[j].verb == verb
    ensures i < |Positions(senses, verb)| && Positions(senses, verb)[i] == j
  {
    var p := Positions(senses, verb);
    assert j in p;
    i :| 0 <= i < |p| && p[i] == j;
  }

  /** Candidates keep the order of the sense table. */
  lemma PositionsOrder(senses: seq<Sense>, verb: string, i: nat, m: nat)
    requires i < |Positions(senses, verb)| && m < |Positions(senses, verb)|
    requires Positions(senses, verb)[i] < Positions(senses, verb)[m]
    ensures i < m
  {
  }

  /** At most one row is the first best: the tie-break makes the choice unique. */
  lemma FirstBestUnique(caption: Vector, senses: seq<Sense>, verb: string, k1: int, k2: int)
    requires FirstBest(caption, senses, verb, k1) && FirstBest(caption, senses, verb, k2)
    ensures k1 == k2
  {
  }

  /** Conversely, when all senses of the verb conform, the first best row is what is predicted. */
  lemma PredictChoosesFirstBest(caption: Vector, senses: seq<Sense>, verb: string, image: int, k: int)
    requires SensesConform(caption, senses, verb)
    requires FirstBest(caption, senses, verb, k)
    ensures Predict(caption, senses, verb, image) == Ok(senses[k])
  {
    assert HasSense(senses, verb);
    PredictFirstBest(caption, senses, verb, image);
    var k' :| FirstBest(caption, senses, verb, k') && senses[k'] == Predict(caption, senses, verb, image).value;
    FirstBestUnique(caption, senses, verb, k, k');
  }

  /**
   * One pair bumps exactly one counter, the correct one exactly when the first
   * best sense carries the annotated sense number.
   */
  lemma PairStepCounts(t: Tally, caption: Vector, image: int, verb: string, senses: seq<Sense>, labels: seq<Label>)
    requires HasLabel(labels, image, verb)
    requires PairStep(t, caption, image, verb, senses, labels).Ok?
    ensures exists k :: FirstBest(caption, senses, verb, k) &&
              PairStep(t, caption, image, verb, senses, labels).value ==
                if senses[k].senseNum == Truth(labels, image, verb)
                then Tally(t.incorrect, t.correct + 1)
                else Tally(t.incorrect + 1, t.correct)
  {
    PredictFirstBest(caption, senses, verb, image);
  }

  // ---------------------------------------------------------------------------
  // Properties of the counting

  lemma {:induction false} FoldVerbsCount(t: Tally, caption: Vector, image: int, verbs: seq<string>, senses: seq<Sense>, labels: seq<Label>)
    requires forall v :: v in verbs ==> HasLabel(labels, image, v)
    requires FoldVerbs(t, caption, image, verbs, senses, labels).Ok?
    ensures FoldVerbs(t, caption, image, verbs, senses, labels).value.Total() == t.Total() + |verbs|
    decreases |verbs|
  {
    if verbs != [] {
      var t' := PairStep(t, caption, image, verbs[0], senses, labels).value;
      FoldVerbsCount(t', caption, image, verbs[1..], senses, labels);
    }
  }

  /** Every visited pair is counted once: the counters add up to the number of pairs. */
  lemma {:induction false} FoldImagesCount(t: Tally, images: seq<Image>, senses: seq<Sense>, labels: seq<Label>)
    requires FoldImages(t, images, senses, labels).Ok?
    ensures FoldImages(t, images, senses, labels).value.incorrect + FoldImages(t, images, senses, labels).value.correct
         == t.incorrect + t.correct + PairCount(images, labels)
    decreases |images|
  {
    if images != [] {
      var im := images[0];
      var verbs := Verbs(labels, im.id);
      var first := FoldVerbs(t, im.caption, im.id, verbs, senses, labels);
      assert FoldImages(t, images, senses, labels) == Resume(first, images[1..], senses, labels);
      assert first.Ok?;
      FoldVerbsCount(t, im.caption, im.id, verbs, senses, labels);
      FoldImagesCount(first.value, images[1..], senses, labels);
    }
  }

  /** The identifiers of the caption table. */
  ghost function ImageIds(images: seq<Image>): set<int>
  {
    set k | 0 <= k < |images| :: images[k].id
  }

  /** The number of annotation rows whose image is in `ids`. */
  function MatchedLabels(labels: seq<Label>, ids: set<int>): nat
  {
    if labels == [] then 0
    else
      var n := |labels| - 1;
      MatchedLabels(labels[..n], ids) + (if labels[n].image in ids then 1 else 0)
  }

  lemma {:induction false} MatchedLabelsAdd(labels: seq<Label>, ids: set<int>, x: int)
    requires x !in ids
    ensures MatchedLabels(labels, ids + {x}) == MatchedLabels(labels, ids) + |Verbs(labels, x)|
  {
    if labels != [] {
      MatchedLabelsAdd(labels[..|labels| - 1], ids, x);
    }
  }

  /**
   * With distinct image identifiers, the pairs visited are exactly the
   * annotation rows whose image is in the caption table.
   */
  lemma {:induction false} PairCountDistinct(images: seq<Image>, labels: seq<Label>)
    requires forall i, j :: 0 <= i < j < |images| ==> images[i].id != images[j].id
    ensures PairCount(images, labels) == MatchedLabels(labels, ImageIds(images))
  {
    if images == [] {
      assert ImageIds(images) == {};
      MatchedLabelsNone(labels);
    } else {
      var rest := images[1..];
      assert ImageIds(images) == ImageIds(rest) + {images[0].id} by {
        forall x ensures x in ImageIds(images) <==> x in ImageIds(rest) + {images[0].id} {
          if x in ImageIds(images) {
            var k :| 0 <= k < |images| && images[k].id == x;
            if k > 0 { assert rest[k - 1].id == x; }
          }
          if x in ImageIds(rest) {
            var k :| 0 <= k < |rest| && rest[k].id == x;
            assert images[k + 1].id == x;
          }
        }
      }
      assert images[0].id !in ImageIds(rest) by {
        assert forall k :: 0 <= k < |rest| ==> rest[k] == images[k + 1];
      }
      PairCountDistinct(rest, labels);
      MatchedLabelsAdd(labels, ImageIds(rest), images[0].id);
    }
  }

  /**
   * With distinct image identifiers, a completed run has counted every
   * annotation row whose image is in the caption table, once.
   */
  lemma EvaluateCountsAnnotations(images: seq<Image>, senses: seq<Sense>, labels: seq<Label>)
    requires forall i, j :: 0 <= i < j < |images| ==> images[i].id != images[j].id
    requires Evaluate(images, senses, labels).Ok?
    ensures Evaluate(images, senses, labels).value.tally.Total() == MatchedLabels(labels, ImageIds(images))
  {
    EvaluateCounts(images, senses, labels);
    PairCountDistinct(images, labels);
  }

  /** A completed run has counted every pair it visited. */
  lemma EvaluateCounts(images: seq<Image>, senses: seq<Sense>, labels: seq<Label>)
    requires Evaluate(images, senses, labels).Ok?
    ensures Evaluate(images, senses, labels).value.tally.Total() == PairCount(images, labels)
  {
    FoldImagesCount(Tally(0, 0), images, senses, labels);
  }

  lemma {:induction false} MatchedLabelsNone(labels: seq<Label>)
    ensures MatchedLabels(labels, {}) == 0
  {
    if labels != [] {
      MatchedLabelsNone(labels[..|labels| - 1]);
    }
  }

  /** An empty annotation table gives no pairs, whatever the caption table. */
  lemma {:induction false} NoLabelsNoPairs(images: seq<Image>)
    ensures PairCount(images, []) == 0
  {
    if images != [] {
      NoLabelsNoPairs(images[1..]);
    }
  }

  /** With no pairs to visit, the loops leave the counters as they were. */
  lemma {:induction false} FoldImagesNoPairs(t: Tally, images: seq<Image>, senses: seq<Sense>, labels: seq<Label>)
    requires PairCount(images, labels) == 0
    ensures FoldImages(t, images, senses, labels) == Ok(t)
    decreases |images|
  {
    if images != [] {
      FoldImagesNoPairs(t, images[1..], senses, labels);
    }
  }

  /** The errors the loops raise are those of a pair, never the final division. */
  lemma {:induction false} FoldImagesErrors(t: Tally, images: seq<Image>, senses: seq<Sense>, labels: seq<Label>)
    requires FoldImages(t, images, senses, labels).Err?
    ensures PairFails(images, senses, labels, FoldImages(t, images, senses, labels).error)
    ensures !FoldImages(t, images, senses, labels).error.NoEvaluatedPairs?
    decreases |images|
  {
    var im := images[0];
    var verbs := Verbs(labels, im.id);
    var first := FoldVerbs(t, im.caption, im.id, verbs, senses, labels);
    if first.Err? {
      FoldVerbsErrors(t, im.caption, im.id, verbs, senses, labels);
      assert images[0] == im;
    } else {
      var rest := images[1..];
      FoldImagesErrors(first.value, rest, senses, labels);
      var e := FoldImages(first.value, rest, senses, labels).error;
      var k :| 0 <= k < |rest| && ImageFails(rest[k], senses, labels, e);
      assert images[k + 1] == rest[k];
    }
  }

  /** The image row `im` whose pair the error `e` names, and why that pair fails. */
  ghost predicate ImageFails(im: Image, senses: seq<Sense>, labels: seq<Label>, e: EvalError)
  {
    match e
    case EmptyCandidateSet(id, verb) => im.id == id && HasLabel(labels, id, verb) && !HasSense(senses, verb)
    case DimensionMismatch(id, verb) => im.id == id && HasLabel(labels, id, verb) && !SensesConform(im.caption, senses, verb)
    case NoEvaluatedPairs => false
  }

  /** Some image row has an annotated verb that fails as the pair error `e` says. */
  ghost predicate PairFails(images: seq<Image>, senses: seq<Sense>, labels: seq<Label>, e: EvalError)
  {
    exists k :: 0 <= k < |images| && ImageFails(images[k], senses, labels, e)
  }

  lemma {:induction false} FoldVerbsErrors(t: Tally, caption: Vector, image: int, verbs: seq<string>, senses: seq<Sense>, labels: seq<Label>)
    requires forall v :: v in verbs ==> HasLabel(labels, image, v)
    requires FoldVerbs(t, caption, image, verbs, senses, labels).Err?
    ensures ImageFails(Image(image, caption), senses, labels, FoldVerbs(t, caption, image, verbs, senses, labels).error)
    decreases |verbs|
  {
    var step := PairStep(t, caption, image, verbs[0], senses, labels);
    if step.Ok? {
      FoldVerbsErrors(step.value, caption, image, verbs[1..], senses, labels);
    }
  }

  /**
   * An error other than "no pairs" names an image row of the caption table
   * and a verb annotated on it whose senses are missing or of the wrong dimension.
   */
  lemma EvaluateErrors(images: seq<Image>, senses: seq<Sense>, labels: seq<Label>, e: EvalError)
    requires Evaluate(images, senses, labels) == Err(e)
    ensures e != NoEvaluatedPairs ==> PairFails(images, senses, labels, e)
  {
    if FoldImages(Tally(0, 0), images, senses, labels).Err? {
      FoldImagesErrors(Tally(0, 0), images, senses, labels);
    }
  }

  /** The run reports "no pairs" exactly when there is no (image row, annotation) pair to visit. */
  lemma EvaluateNoPairs(images: seq<Image>, senses: seq<Sense>, labels: seq<Label>)
    ensures Evaluate(images, senses, labels) == Err(NoEvaluatedPairs) <==> PairCount(images, labels) == 0
  {
    var folded := FoldImages(Tally(0, 0), images, senses, labels);
    if PairCount(images, labels) == 0 {
      FoldImagesNoPairs(Tally(0, 0), images, senses, labels);
    } else if folded.Err? {
      FoldImagesErrors(Tally(0, 0), images, senses, labels);
    } else {
      FoldImagesCount(Tally(0, 0), images, senses, labels);
    }
  }

  /** A verb annotated on some image row but absent from the sense table makes the run fail. */
  lemma EvaluateFailsOnUnknownVerb(images: seq<Image>, senses: seq<Sense>, labels: seq<Label>, k: int, verb: string)
    requires 0 <= k < |images|
    requires HasLabel(labels, images[k].id, verb) && !HasSense(senses, verb)
    ensures Evaluate(images, senses, labels).Err?
  {
    FoldImagesFails(Tally(0, 0), images, senses, labels, k, verb);
  }

  lemma {:induction false} FoldImagesFails(t: Tally, images: seq<Image>, senses: seq<Sense>, labels: seq<Label>, k: int, verb: string)
    requires 0 <= k < |images|
    requires HasLabel(labels, images[k].id, verb) && !HasSense(senses, verb)
    ensures FoldImages(t, images, senses, labels).Err?
    decreases |images|
  {
    var im := images[0];
    var verbs := Verbs(labels, im.id);
    var first := FoldVerbs(t, im.caption, im.id, verbs, senses, labels);
    if k == 0 {
      FoldVerbsFails(t, im.caption, im.id, verbs, senses, labels, verb);
    } else if first.Ok? {
      assert images[1..][k - 1] == images[k];
      FoldImagesFails(first.value, images[1..], senses, labels, k - 1, verb);
    }
  }

  lemma {:induction false} FoldVerbsFails(t: Tally, caption: Vector, image: int, verbs: seq<string>, senses: seq<Sense>, labels: seq<Label>, verb: string)
    requires forall v :: v in verbs ==> HasLabel(labels, image, v)
    requires verb in verbs && !HasSense(senses, verb)
    ensures FoldVerbs(t, caption, image, verbs, senses, labels).Err?
    decreases |verbs|
  {
    var step := PairStep(t, caption, image, verbs[0], senses, labels);
    if verbs[0] != verb && step.Ok? {
      FoldVerbsFails(step.value, caption, image, verbs[1..], senses, labels, verb);
    }
  }
}
