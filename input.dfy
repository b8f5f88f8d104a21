/** The parsed timeline description and the constants of the layout engine. */
module Input {
  import opened Wrappers

  type Color = string

  /** `Colors.black` and `Colors.gray`. */
  const BLACK: Color := "#000000"
  const GRAY: Color := "#C0C0C0"

  /** `Callout.width`, `Callout.height`, `Callout.increment`. */
  const CALLOUT_WIDTH: int := 10
  const CALLOUT_HEIGHT: int := 15
  const CALLOUT_INCREMENT: int := 10

  /** `text_fudge`: a horizontal nudge for text, in pixels, and a vertical
      one of 1.5 pixels, kept in half pixels. */
  const FUDGE_X: int := 3
  const FUDGE_Y_HALVES: int := 3

  /** The pattern every axis label is formatted with. */
  const DATE_FORMAT: string := "MMM DD, YYYY - HH:mmA"

  /** Height at which era arrows and names are drawn (`y_era` in `build`). */
  const Y_ERA: int := 10

  /** One `eras` entry: `[name, start, end, optional color]`. */
  datatype EraSpec = EraSpec(name: string, startTime: int, endTime: int, color: Option<Color>)

  /** One `callouts` entry: `[name, timestamp, optional color]`. */
  datatype CalloutSpec = CalloutSpec(name: string, time: int, color: Option<Color>)

  /** The description dictionary. The three required keys are plain fields;
      every optional key is an `Option` (`None` = key absent). Timestamps are
      whole seconds. */
  datatype Config = Config(
    width: int,
    start: int,
    end: int,
    tickFormat: Option<string>,
    numTicks: Option<int>,
    eras: Option<seq<EraSpec>>,
    callouts: Option<seq<CalloutSpec>>)
}
