/** A hiring-hall override of a planetary system: a start date, an optional end
    date and a hiring-hall level.  Dates are day numbers. */
module HiringHall {
  import opened Wrappers

  datatype HiringHallLevel = NONE | QUESTIONABLE | MINOR | STANDARD | GREAT

  class HiringHallOverride {
    var start: Option<int>
    var end: Option<int>
    var level: HiringHallLevel

    /** A freshly read override has no dates and level NONE. */
    constructor ()
      ensures start == None && end == None && level == NONE
    {
      start, end, level := None, None, NONE;
    }

    function GetLevel(): (l: HiringHallLevel)
      reads this
      ensures l == level
    {
      level
    }

    method SetLevel(l: HiringHallLevel)
      modifies this`level
      ensures level == l && GetLevel() == l
    {
      level := l;
    }

    /** Whether the hall is active on `date`: never without a start date, always
        without an end date, and otherwise strictly between the two dates. */
    function IsActive(date: int): (active: bool)
      reads this
      ensures start.None? ==> !active
      ensures start.Some? && end.None? ==> active
      ensures start.Some? && end.Some? ==> (active <==> start.value < date < end.value)
    {
      if start.None? then false
      else if end.None? then true
      else start.value < date && date < end.value
    }
  }

  /** The override is inactive on its own start and end dates. */
  lemma InactiveOnBoundaryDates(h: HiringHallOverride)
    requires h.start.Some? && h.end.Some?
    ensures !h.IsActive(h.start.value) && !h.IsActive(h.end.value)
  {
  }
}
