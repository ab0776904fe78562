/** Day-of-week labels as the repository writes them ("Mon" .. "Sun"). */
module Calendar {
  /** The weekend test used throughout: `day_of_week in ['Fri', 'Sun']`. */
  predicate IsFriOrSun(dayOfWeek: string)
  {
    dayOfWeek == "Fri" || dayOfWeek == "Sun"
  }
}
