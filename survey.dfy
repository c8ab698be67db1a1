/** The records a survey result is stored as: per-axis scores with their
    pole labels and per-flavor matches. */
module Survey {

  datatype AxisScore = AxisScore(
    axisId: string,
    name: string,
    score: real,
    poleNegative: string,
    polePositive: string,
    poleLabel: string)

  datatype FlavorMatch = FlavorMatch(
    flavorId: string,
    name: string,
    affinity: real,
    matchStrength: string,
    description: string,
    color: string)
}
