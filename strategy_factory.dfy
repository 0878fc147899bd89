/** `CanvasStrategyFactory.getStrategy`: the canvas-creation strategy for a canvas type. */
module StrategyFactory {

  datatype Strategy = GameStrategy | EventStrategy | PublicStrategy

  /** 'game', 'event' and 'public' select their own strategy; every other type falls back to the event one. */
  function GetStrategy(canvasType: string): (s: Strategy)
    ensures s == GameStrategy <==> canvasType == "game"
    ensures s == PublicStrategy <==> canvasType == "public"
    ensures s == EventStrategy <==> canvasType != "game" && canvasType != "public"
  {
    match canvasType
    case "game" => GameStrategy
    case "event" => EventStrategy
    case "public" => PublicStrategy
    case _ => EventStrategy
  }

  /** The stored canvas types other than 'public' ('event_common', 'event_colorlimit', 'game_calculation') all get the event strategy. */
  lemma StoredTypesDispatch()
    ensures GetStrategy("public") == PublicStrategy
    ensures GetStrategy("event_common") == EventStrategy
    ensures GetStrategy("event_colorlimit") == EventStrategy
    ensures GetStrategy("game_calculation") == EventStrategy
  {
  }
}
