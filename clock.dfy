/**
 * The day/night background chosen by the wall-clock callback of
 * TimerViewController (updateClock): the hour of the current date is an input
 * here; reading the clock and formatting the date are not modelled.
 */
module Clock {
  const AM_BACKGROUND := "am_background"
  const PM_BACKGROUND := "pm_background"

  /** The image asset shown behind the clock for the given hour of the day. */
  function BackgroundImageName(hour: int): (name: string)
    ensures name == PM_BACKGROUND <==> hour >= 12
    ensures name == AM_BACKGROUND <==> hour < 12
  {
    if hour >= 12 then PM_BACKGROUND else AM_BACKGROUND
  }
}
