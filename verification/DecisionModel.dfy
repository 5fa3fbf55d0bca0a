/** Decision groups as the engine reports them. */
module DecisionModel {
  /** A 32-bit float as far as decisions care: a real number, or one of the non-finite values. */
  datatype Float = Finite(value: real) | NonFinite

  datatype Answer =
    | Noul(probability: Float)
    | Choice(choice: string, probabilities: seq<(string, Float)>, concentration: Float)
    | Score(score: Float, legend: seq<string>, weights: seq<Float>, spread: Float)

  datatype BranchLogits = BranchLogits(questionId: string, logits: seq<Float>)

  datatype Completion = Completion(
    answers: seq<(string, Answer)>, branchLogits: seq<BranchLogits>, inputTokens: nat, outputTokens: nat)

  /** What a decision handler is told. */
  datatype Outcome = Decided(completion: Completion) | Undecided(message: string)
}
