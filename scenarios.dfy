/** Worked examples of the evaluation on small tables. */
module Scenarios {
  import opened Outcomes
  import opened Disambiguation

  /**
   * A table with two senses of one verb, both of the caption's dimension:
   * the first wins unless the second scores strictly higher.
   */
  lemma TwoSenses(caption: Vector, a: Sense, b: Sense, image: int)
    requires a.verb == b.verb
    requires |a.definition| == |caption| && |b.definition| == |caption|
    ensures Dot(caption, b.definition) <= Dot(caption, a.definition) ==> Predict(caption, [a, b], a.verb, image) == Ok(a)
    ensures Dot(caption, a.definition) < Dot(caption, b.definition) ==> Predict(caption, [a, b], a.verb, image) == Ok(b)
  {
    var senses := [a, b];
    assert SensesConform(caption, senses, a.verb);
    if Dot(caption, b.definition) <= Dot(caption, a.definition) {
      assert FirstBest(caption, senses, a.verb, 0);
      PredictChoosesFirstBest(caption, senses, a.verb, image, 0);
    } else {
      assert FirstBest(caption, senses, a.verb, 1);
      PredictChoosesFirstBest(caption, senses, a.verb, image, 1);
    }
  }

  /**
   * An image annotated with exactly one verb: the run scores that one pair
   * and goes on with the remaining images, or stops with the pair's error.
   */
  lemma ImageStep(t: Tally, im: Image, rest: seq<Image>, senses: seq<Sense>, labels: seq<Label>, verb: string, chosen: int)
    requires Verbs(labels, im.id) == [verb]
    requires HasLabel(labels, im.id, verb) && Truth(labels, im.id, verb) == chosen
    ensures FoldImages(t, [im] + rest, senses, labels) ==
      match Predict(im.caption, senses, verb, im.id)
      case Err(e) => Err(e)
      case Ok(s) => FoldImages(Bump(t, s.senseNum == chosen), rest, senses, labels)
  {
    var images := [im] + rest;
    assert images[0] == im && images[1..] == rest;
    var first := FoldVerbs(t, im.caption, im.id, [verb], senses, labels);
    assert FoldImages(t, images, senses, labels) == Resume(first, rest, senses, labels);
    assert [verb][1..] == [];
    match Predict(im.caption, senses, verb, im.id)
    case Err(e) =>
      assert PairStep(t, im.caption, im.id, verb, senses, labels) == Err(e);
    case Ok(s) =>
      var t' := Bump(t, s.senseNum == chosen);
      assert PairStep(t, im.caption, im.id, verb, senses, labels) == Ok(t');
      assert FoldVerbs(t', im.caption, im.id, [], senses, labels) == Ok(t');
  }

  /** As `ImageStep`, for a pair whose prediction is known to succeed. */
  lemma ImageHit(t: Tally, im: Image, rest: seq<Image>, senses: seq<Sense>, labels: seq<Label>, verb: string, chosen: int, s: Sense)
    requires Verbs(labels, im.id) == [verb]
    requires HasLabel(labels, im.id, verb) && Truth(labels, im.id, verb) == chosen
    requires Predict(im.caption, senses, verb, im.id) == Ok(s)
    ensures FoldImages(t, [im] + rest, senses, labels) == FoldImages(Bump(t, s.senseNum == chosen), rest, senses, labels)
  {
    ImageStep(t, im, rest, senses, labels, verb, chosen);
  }

  /**
   * One image with one annotation: 100 percent when the predicted sense
   * number is the annotated one, 0 percent otherwise, or the pair's error.
   */
  lemma SingleImage(im: Image, senses: seq<Sense>, l: Label)
    requires l.image == im.id
    ensures Predict(im.caption, senses, l.verb, im.id).Err? ==>
      Evaluate([im], senses, [l]) == Err(Predict(im.caption, senses, l.verb, im.id).error)
    ensures Predict(im.caption, senses, l.verb, im.id).Ok? ==>
      var hit := Predict(im.caption, senses, l.verb, im.id).value.senseNum == l.senseChosen;
      Evaluate([im], senses, [l]) == Ok(Report(Bump(Tally(0, 0), hit), if hit then 100.0 else 0.0))
  {
    var labels := [l];
    assert labels[..0] == [];
    assert Verbs(labels, im.id) == [l.verb];
    assert FirstLabel(labels, im.id, l.verb) == 0;
    assert [im] + [] == [im];
    ImageStep(Tally(0, 0), im, [], senses, labels, l.verb, l.senseChosen);
    match Predict(im.caption, senses, l.verb, im.id)
    case Err(e) =>
    case Ok(s) =>
      PercentageMeaning(Bump(Tally(0, 0), s.senseNum == l.senseChosen));
  }

  /** Two senses of "run": sense 1 points along the first axis, sense 2 along the second. */
  function RunSenses(): seq<Sense>
  {
    [Sense("run", 1, [1.0, 0.0]), Sense("run", 2, [0.0, 1.0])]
  }

  /** A caption along the first axis prefers sense 1 of "run", along the second sense 2. */
  lemma RunPredictions(image: int)
    ensures Predict([1.0, 0.0], RunSenses(), "run", image) == Ok(RunSenses()[0])
    ensures Predict([0.0, 1.0], RunSenses(), "run", image) == Ok(RunSenses()[1])
  {
    var a := Sense("run", 1, [1.0, 0.0]);
    var b := Sense("run", 2, [0.0, 1.0]);
    assert Dot([1.0, 0.0], a.definition) == 1.0;
    assert Dot([1.0, 0.0], b.definition) == 0.0;
    assert Dot([0.0, 1.0], a.definition) == 0.0;
    assert Dot([0.0, 1.0], b.definition) == 1.0;
    TwoSenses([1.0, 0.0], a, b, image);
    TwoSenses([0.0, 1.0], a, b, image);
  }

  /** The caption picks sense 1, which is the annotated one: 100 percent. */
  lemma ScenarioCorrect()
    ensures Evaluate([Image(7, [1.0, 0.0])], RunSenses(), [Label(7, "run", 1)])
         == Ok(Report(Tally(0, 1), 100.0))
  {
    RunPredictions(7);
    SingleImage(Image(7, [1.0, 0.0]), RunSenses(), Label(7, "run", 1));
  }

  /** The same pair annotated with sense 2: 0 percent. */
  lemma ScenarioIncorrect()
    ensures Evaluate([Image(7, [1.0, 0.0])], RunSenses(), [Label(7, "run", 2)])
         == Ok(Report(Tally(1, 0), 0.0))
  {
    RunPredictions(7);
    SingleImage(Image(7, [1.0, 0.0]), RunSenses(), Label(7, "run", 2));
  }

  /** The verbs a one-row annotation table gives an image. */
  lemma SingleLabel(l: Label, image: int)
    ensures Verbs([l], image) == if l.image == image then [l.verb] else []
  {
    assert [l][..0] == [];
  }

  /** A two-row annotation table over two distinct images: one verb each. */
  lemma TwoLabels(la: Label, lb: Label)
    requires la.image != lb.image
    ensures Verbs([la, lb], la.image) == [la.verb] && Verbs([la, lb], lb.image) == [lb.verb]
    ensures HasLabel([la, lb], la.image, la.verb) && HasLabel([la, lb], lb.image, lb.verb)
    ensures Truth([la, lb], la.image, la.verb) == la.senseChosen
    ensures Truth([la, lb], lb.image, lb.verb) == lb.senseChosen
  {
    var labels := [la, lb];
    assert labels[..1] == [la];
    SingleLabel(la, la.image);
    SingleLabel(la, lb.image);
    assert FirstLabel(labels, la.image, la.verb) == 0;
    assert labels[1..] == [lb];
    assert labels[1..][0] == lb;
    assert FirstLabel(labels[1..], lb.image, lb.verb) == 0;
  }

  /**
   * Two images with distinct identifiers, one annotation each, one predicted
   * right and the other wrong: one tick on each counter, 50 percent.
   */
  lemma OneRightOneWrong(a: Image, b: Image, senses: seq<Sense>, la: Label, lb: Label, sa: Sense, sb: Sense)
    requires a.id != b.id && la.image == a.id && lb.image == b.id
    requires Predict(a.caption, senses, la.verb, a.id) == Ok(sa) && sa.senseNum == la.senseChosen
    requires Predict(b.caption, senses, lb.verb, b.id) == Ok(sb) && sb.senseNum != lb.senseChosen
    ensures Evaluate([a, b], senses, [la, lb]) == Ok(Report(Tally(1, 1), 50.0))
  {
    TwoImagesFold(a, b, senses, la, lb, sa, sb);
    HalfPercent();
  }

  /** The loops of `OneRightOneWrong`: one correct pair, then one incorrect pair. */
  lemma TwoImagesFold(a: Image, b: Image, senses: seq<Sense>, la: Label, lb: Label, sa: Sense, sb: Sense)
    requires a.id != b.id && la.image == a.id && lb.image == b.id
    requires Predict(a.caption, senses, la.verb, a.id) == Ok(sa) && sa.senseNum == la.senseChosen
    requires Predict(b.caption, senses, lb.verb, b.id) == Ok(sb) && sb.senseNum != lb.senseChosen
    ensures FoldImages(Tally(0, 0), [a, b], senses, [la, lb]) == Ok(Tally(1, 1))
  {
    var labels := [la, lb];
    TwoLabels(la, lb);
    var t1 := Bump(Tally(0, 0), true);
    var t2 := Bump(t1, false);
    ImageHit(Tally(0, 0), a, [b], senses, labels, la.verb, la.senseChosen, sa);
    ImageHit(t1, b, [], senses, labels, lb.verb, lb.senseChosen, sb);
    assert [a, b] == [a] + [b] && [b] == [b] + [];
    assert FoldImages(t2, [], senses, labels) == Ok(t2);
  }

  /** Two images, one right and one wrong: 50 percent. */
  lemma ScenarioHalf()
    ensures Evaluate([Image(7, [1.0, 0.0]), Image(8, [0.0, 1.0])], RunSenses(),
                     [Label(7, "run", 1), Label(8, "run", 1)])
         == Ok(Report(Tally(1, 1), 50.0))
  {
    RunPredictions(7);
    RunPredictions(8);
    OneRightOneWrong(Image(7, [1.0, 0.0]), Image(8, [0.0, 1.0]), RunSenses(),
                     Label(7, "run", 1), Label(8, "run", 1), RunSenses()[0], RunSenses()[1]);
  }

  /** One right out of two: 50 percent. */
  lemma HalfPercent()
    ensures Percentage(Tally(1, 1)) == Ok(50.0)
  {
    assert Tally(1, 1).Total() == 2;
    assert (1 as real) / (2 as real) == 0.5;
  }

  /** Equal scores: the earlier sense row wins. */
  lemma ScenarioTie()
    ensures Predict([1.0, 0.0], [Sense("run", 1, [1.0, 0.0]), Sense("run", 2, [1.0, 5.0])], "run", 7)
         == Ok(Sense("run", 1, [1.0, 0.0]))
  {
    var a := Sense("run", 1, [1.0, 0.0]);
    var b := Sense("run", 2, [1.0, 5.0]);
    assert Dot([1.0, 0.0], a.definition) == 1.0;
    assert Dot([1.0, 0.0], b.definition) == 1.0;
    TwoSenses([1.0, 0.0], a, b, 7);
  }

  /** A verb without senses stops the run with an error naming the pair. */
  lemma ScenarioUnknownVerb()
    ensures Evaluate([Image(7, [1.0, 0.0])], RunSenses(), [Label(7, "walk", 1)])
         == Err(EmptyCandidateSet(7, "walk"))
  {
    assert !HasSense(RunSenses(), "walk");
    SingleImage(Image(7, [1.0, 0.0]), RunSenses(), Label(7, "walk", 1));
  }

  /** An empty annotation table leaves nothing to divide by. */
  lemma ScenarioNoLabels(images: seq<Image>, senses: seq<Sense>)
    ensures Evaluate(images, senses, []) == Err(NoEvaluatedPairs)
  {
    NoLabelsNoPairs(images);
    EvaluateNoPairs(images, senses, []);
  }
}
