// Fixed configuration of the collection and analysis run (src/config.py).
// Loading the environment file and the bearer token is not part of this model.
module Config {

  /** Profile of the club whose replies are searched. */
  const ClubProfile: string := "SaoPauloFC"

  /** Item cap per window before the match. */
  const LimitPreMatch: int := 75

  /** Item cap per window during and after the match. */
  const LimitDuringPost: int := 100

  /** The emotion labels over which percentages are aggregated, in this order. */
  const Emotions: seq<string> := ["alegria", "raiva", "tristeza", "surpresa", "medo"]

  /** Hashtags associated with the club, in the order they are joined into the query. */
  const ClubHashtags: seq<string> :=
    ["#SPFC", "#SãoPauloFC", "#VamosSãoPaulo", "#Tricolores", "#saopaulofc", "#spfc", "#tricolores"]

  /** The label the classifier uses for posts with no mappable emotion. */
  const Neutral: string := "neutro"
}
