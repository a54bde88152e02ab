/**
 * The move-analysis record shown by the overlay: its fields, the closed set
 * of move-quality labels accepted at construction, and its debug text.
 */
module Models {
  import opened Wrappers
  import Text

  /** The labels construction accepts, in the order the error message lists them. */
  const ValidLabels: seq<string> :=
    ["brilliant", "best", "excellent", "good", "inaccuracy", "mistake", "blunder", "forced"]

  /** Python's rendering of `ValidLabels` inside the error message. */
  const ValidLabelsText: string :=
    "['brilliant', 'best', 'excellent', 'good', 'inaccuracy', 'mistake', 'blunder', 'forced']"

  /**
   * One analysed move; `None` stands for Python's `None`. The Python field
   * `label` is called `quality` here (`label` is a Dafny keyword).
   */
  datatype MoveDisplayData = MoveDisplayData(
    quality: string,
    bestMove: string,
    opponentBestMove: Option<string>,
    evaluation: Option<int>,
    depth: Option<int>)

  /** The `ValueError` raised for a label outside the closed set. */
  datatype InvalidLabel = InvalidLabel(message: string)

  /**
   * Construction with `__post_init__`'s label check: the record exactly as
   * given when the label is one of the eight, the `ValueError` otherwise.
   * The best move is not checked.
   */
  function New(quality: string, bestMove: string, opponentBestMove: Option<string>,
               evaluation: Option<int>, depth: Option<int>): (r: Result<MoveDisplayData, InvalidLabel>)
    ensures r.Success? <==> quality in ValidLabels
    ensures r.Success? ==> r.value == MoveDisplayData(quality, bestMove, opponentBestMove, evaluation, depth)
    ensures r.Failure? ==> r.error.message == "Invalid label: " + quality + ". Must be one of " + ValidLabelsText
  {
    if quality !in ValidLabels then
      Failure(InvalidLabel("Invalid label: " + quality + ". Must be one of " + ValidLabelsText))
    else
      Success(MoveDisplayData(quality, bestMove, opponentBestMove, evaluation, depth))
  }

  /** Construction with only the two required fields: the optional ones are `None`. */
  function NewWithDefaults(quality: string, bestMove: string): (r: Result<MoveDisplayData, InvalidLabel>)
    ensures r.Success? <==> quality in ValidLabels
    ensures r.Success? ==> r.value.quality == quality && r.value.bestMove == bestMove
    ensures r.Success? ==> r.value.opponentBestMove.None? && r.value.evaluation.None? && r.value.depth.None?
  {
    New(quality, bestMove, None, None, None)
  }

  /** The accepted labels are exactly these eight words. */
  lemma ValidLabelsAre(quality: string)
    ensures quality in ValidLabels <==>
      quality == "brilliant" || quality == "best" || quality == "excellent" || quality == "good" ||
      quality == "inaccuracy" || quality == "mistake" || quality == "blunder" || quality == "forced"
  {
  }

  /** "theory", "miss" and "great" are refused, although other parts of the project use them. */
  lemma ExtraLabelsRejected()
    ensures New("theory", "h3", None, None, None).Failure?
    ensures New("miss", "e4", None, None, None).Failure?
    ensures New("great", "e4", None, None, None).Failure?
  {
    assert "theory" !in ValidLabels by { ValidLabelsAre("theory"); }
    assert "miss" !in ValidLabels by { ValidLabelsAre("miss"); }
    assert "great" !in ValidLabels by { ValidLabelsAre("great"); }
  }

  /** Python truthiness of the optional opponent move: present and non-empty. */
  predicate HasOpponentMove(d: MoveDisplayData) {
    d.opponentBestMove.Some? && d.opponentBestMove.value != ""
  }

  function OpponentPart(d: MoveDisplayData): string {
    if HasOpponentMove(d) then ", opp_best=" + d.opponentBestMove.value else ""
  }

  function EvaluationPart(d: MoveDisplayData): string {
    match d.evaluation
    case None => ""
    case Some(e) => ", eval=" + Text.SignedDecimal(e) + "cp"
  }

  /** The opening every rendering starts with. */
  function ReprHead(d: MoveDisplayData): string {
    "MoveDisplayData(label=" + d.quality + ", best=" + d.bestMove
  }

  /** `__repr__`: the label and best move, then the optional parts, then ")". */
  function Repr(d: MoveDisplayData): string {
    ReprHead(d) + OpponentPart(d) + EvaluationPart(d) + ")"
  }

  /**
   * The rendering opens with the label and best move and closes with ")";
   * between them stands ", opp_best=<move>" exactly when the opponent move
   * is non-empty, then ", eval=<signed>cp" exactly when an evaluation is
   * present, and nothing else.
   */
  lemma ReprParts(d: MoveDisplayData)
    ensures var r, h := Repr(d), ReprHead(d);
      |r| > |h| && r[..|h|] == h && r[|r| - 1] == ')' &&
      r[|h|..|r| - 1] == OpponentPart(d) + EvaluationPart(d)
    ensures OpponentPart(d) == "" <==> !HasOpponentMove(d)
    ensures HasOpponentMove(d) ==> OpponentPart(d) == ", opp_best=" + d.opponentBestMove.value
    ensures EvaluationPart(d) == "" <==> d.evaluation.None?
  {
    var h, m := ReprHead(d), OpponentPart(d) + EvaluationPart(d);
    var r := h + m + ")";
    assert Repr(d) == r;
    assert r[..|h|] == h;
    assert r[|h|..|r| - 1] == m;
  }

  /**
   * The evaluation part carries an explicit sign and reads back as the
   * evaluation itself: "-750cp" for -750, "+0cp" for 0.
   */
  lemma EvaluationReadsBack(d: MoveDisplayData)
    requires d.evaluation.Some?
    ensures var p := EvaluationPart(d);
      |p| >= 10 && p[..6] == ", eval" && p[6] == '=' && p[|p| - 2..] == "cp" &&
      (p[7] == '-' <==> d.evaluation.value < 0) && (p[7] == '+' <==> d.evaluation.value >= 0) &&
      Text.ParseSigned(p[7..|p| - 2]) == Some(d.evaluation.value)
  {
    var e := d.evaluation.value;
    var p := EvaluationPart(d);
    assert p == ", eval=" + Text.SignedDecimal(e) + "cp";
    assert p[7..|p| - 2] == Text.SignedDecimal(e);
    Text.SignedRoundTrip(e);
  }

  /** The search depth never shows in the rendering. */
  lemma ReprIgnoresDepth(d: MoveDisplayData, depth: Option<int>)
    ensures Repr(d.(depth := depth)) == Repr(d)
  {
  }

  /** The evaluation of models.py's sample blunder (-750), and zero, which still gets a sign. */
  lemma EvaluationSamples()
    ensures EvaluationPart(MoveDisplayData("blunder", "Rd1", Some("Qxf2#"), Some(-750), None)) == ", eval=-750cp"
    ensures EvaluationPart(MoveDisplayData("best", "e4", None, Some(0), None)) == ", eval=+0cp"
  {
    assert Text.NatDecimal(7) == "7";
    assert Text.NatDecimal(75) == "75";
    assert Text.NatDecimal(750) == "750";
  }
}
