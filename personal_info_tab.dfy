/** The age effect of app/components/personal-info-tab.tsx: whenever the
    date of birth changes and is not empty, the age is recomputed from it,
    clamped to 0 when negative or when the birth date lies in the future,
    and written into the form. */
module PersonalInfoTab {
  import opened FarmerForm

  /** A `Date` object: its calendar date and the time within that day, so
      that `birthDate > today` compares instants and not only days. */
  datatype Moment = Moment(date: Date, msOfDay: int)

  /** `a > b` on two `Date` objects. */
  predicate After(a: Moment, b: Moment)
  {
    !DateLe(a.date, b.date) || (a.date == b.date && a.msOfDay > b.msOfDay)
  }

  /** The whole years since birth, or 0 before the first birthday or for a
      birth date in the future; `future` says whether the future-date
      warning is shown. */
  method ClampedAge(birth: Moment, today: Moment) returns (age: int, future: bool)
    ensures future <==> After(birth, today)
    ensures age >= 0
    ensures age > 0 ==> CompletedYears(birth.date, today.date, age)
    ensures age == 0 <==> !DateLe(Anniversary(birth.date, 1), today.date)
  {
    age := today.date.year - birth.date.year;
    var monthDiff := today.date.month - birth.date.month;
    if monthDiff < 0 || (monthDiff == 0 && today.date.day < birth.date.day) {
      age := age - 1;
    }
    assert CompletedYears(birth.date, today.date, age);
    if age < 0 {
      age := 0;
    }
    future := After(birth, today);
    if future {
      FutureClampRedundant(birth, today, age);
      age := 0;
    }
  }

  /** The future-date rule never changes the result: a birth instant after
      now is on or after today's date, where no year has been completed
      and the negative-age clamp has already given 0. */
  lemma FutureClampRedundant(birth: Moment, today: Moment, n: int)
    requires After(birth, today)
    requires n == 0 || (n > 0 && CompletedYears(birth.date, today.date, n))
    ensures n == 0
  {
  }

  /** The effect: nothing is written while the date of birth is empty;
      otherwise only the age changes.  `new Date(dateOfBirth)` and
      `new Date()` are given as `birth` and `today`. */
  method AgeEffect(form: FormStore, birth: Moment, today: Moment) returns (warned: bool)
    requires form.Valid()
    modifies form
    ensures form.Valid()
    ensures old(form.values.dateOfBirth) == [] ==> form.values == old(form.values) && !warned
    ensures old(form.values.dateOfBirth) != [] ==>
      && form.values == old(form.values).(age := form.values.age)
      && form.values.age >= 0
      && (form.values.age > 0 ==> CompletedYears(birth.date, today.date, form.values.age))
      && (form.values.age == 0 <==> !DateLe(Anniversary(birth.date, 1), today.date))
      && (warned <==> After(birth, today))
  {
    warned := false;
    if form.values.dateOfBirth != [] {
      var age;
      age, warned := ClampedAge(birth, today);
      form.SetAge(age);
    }
  }

  /** The clamped age is the whole years completed whenever that is not
      negative, and 0 otherwise. */
  lemma ClampedIsMaxWithZero(birth: Date, today: Date, n: int, clamped: int)
    requires CompletedYears(birth, today, n)
    requires clamped >= 0
    requires clamped > 0 ==> CompletedYears(birth, today, clamped)
    requires clamped == 0 <==> !DateLe(Anniversary(birth, 1), today)
    ensures clamped == if n < 0 then 0 else n
  {
    if clamped > 0 {
      CompletedYearsUnique(birth, today, n, clamped);
    }
  }
}
