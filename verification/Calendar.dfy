/** Day numbers and their "Julian" form, year * 1000 + day of the year. */
module Calendar {

  const START_DATE := 92001     // both the day number and the Julian form of 1992-01-01
  const CURRENT_DATE := 95168   // Julian form
  const CURRENT_DAY := 93264    // the day number of the same day
  const TOT_DATE := 2557        // days in the table of dates

  /** 1 in leap years; the year 2000 is 100 here and does not count as one. */
  function Yeap(year: int): int {
    if year % 4 == 0 && year % 100 != 0 then 1 else 0
  }

  function YearLength(year: int): int {
    365 + Yeap(year)
  }

  /** The Julian form of the day `offset` days after the first day of a year. */
  ghost function JulianFrom(year: int, offset: nat): int
    decreases offset
  {
    if offset < YearLength(year) then year * 1000 + 1 + offset
    else JulianFrom(year + 1, offset - YearLength(year))
  }

  ghost function JulianDate(date: int): int {
    if date < START_DATE then date else JulianFrom(92, date - START_DATE)
  }

  /** julian: subtract whole years until the offset falls into one. */
  method Julian(date: int) returns (r: int)
    ensures r == JulianDate(date)
  {
    var offset, result := date - START_DATE, START_DATE;
    ghost var year := 92;
    while true
      invariant result == year * 1000 + 1
      invariant date < START_DATE ==> year == 92 && offset == date - START_DATE
      invariant date >= START_DATE ==> 0 <= offset && JulianFrom(year, offset) == JulianDate(date)
      decreases offset
    {
      var yr := result / 1000;
      var yend := yr * 1000 + 365 + Yeap(yr);
      if result + offset > yend {
        offset := offset - (yend - result + 1);
        result := result + 1000;
        year := year + 1;
      } else {
        break;
      }
    }
    r := result + offset;
  }

  lemma {:induction false} JulianFromYear(year: int, offset: nat)
    ensures year * 1000 < JulianFrom(year, offset)
    ensures offset >= YearLength(year) ==> (year + 1) * 1000 < JulianFrom(year, offset)
    decreases offset
  {
    if offset >= YearLength(year) {
      JulianFromYear(year + 1, offset - YearLength(year));
    }
  }

  lemma {:induction false} JulianFromIncreases(year: int, a: nat, b: nat)
    requires a < b
    ensures JulianFrom(year, a) < JulianFrom(year, b)
    decreases a
  {
    if a >= YearLength(year) {
      JulianFromIncreases(year + 1, a - YearLength(year), b - YearLength(year));
    } else {
      JulianFromYear(year, b);
    }
  }

  /** Later days have larger Julian forms. */
  lemma JulianIncreases(a: int, b: int)
    requires a < b
    ensures JulianDate(a) < JulianDate(b)
  {
    if b >= START_DATE {
      JulianFromYear(92, b - START_DATE);
      if a >= START_DATE {
        JulianFromIncreases(92, a - START_DATE, b - START_DATE);
      } else {
        assert b - START_DATE == 0 || JulianFrom(92, 0) < JulianFrom(92, b - START_DATE) by {
          if b > START_DATE {
            JulianFromIncreases(92, 0, b - START_DATE);
          }
        }
      }
    }
  }

  /** The inverse: the days of the whole years since `year`, and the day of the last one. */
  ghost function OffsetOf(year: int, julian: int): int
    decreases julian / 1000 - year
  {
    if julian / 1000 <= year then julian % 1000 - 1 else YearLength(year) + OffsetOf(year + 1, julian)
  }

  lemma {:induction false} OffsetOfJulian(year: int, offset: nat)
    ensures OffsetOf(year, JulianFrom(year, offset)) == offset
    decreases offset
  {
    JulianFromYear(year, offset);
    if offset >= YearLength(year) {
      OffsetOfJulian(year + 1, offset - YearLength(year));
      assert JulianFrom(year, offset) / 1000 >= year + 1;
    }
  }

  /** Every day from the start date is recovered from its Julian form. */
  lemma JulianInverse(date: int)
    requires START_DATE <= date
    ensures START_DATE + OffsetOf(92, JulianDate(date)) == date
  {
    OffsetOfJulian(92, date - START_DATE);
  }

  /** Comparing a Julian form with the current date decides the same as comparing day numbers. */
  lemma JulianDecides(date: int)
    ensures JulianDate(date) <= CURRENT_DATE <==> date <= CURRENT_DAY
  {
    assert JulianFrom(92, 1263) == JulianFrom(93, 897) == JulianFrom(94, 532) == JulianFrom(95, 167) == CURRENT_DATE;
    assert JulianDate(CURRENT_DAY) == CURRENT_DATE;
    if date < CURRENT_DAY {
      JulianIncreases(date, CURRENT_DAY);
    } else if date > CURRENT_DAY {
      JulianIncreases(CURRENT_DAY, date);
    }
  }
}
