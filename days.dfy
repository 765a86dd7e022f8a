// The fixed table of weekday names (bot.py, DAYS) and lookups in it.

module Days {
  import opened Text

  datatype Option<T> = None | Some(value: T)

  datatype Day = Monday | Tuesday | Wednesday | Thursday | Friday | Saturday | Sunday

  /** The canonical order in which days are listed. */
  const DAYS: seq<Day> := [Monday, Tuesday, Wednesday, Thursday, Friday, Saturday, Sunday]

  /** The lower-case Russian name of each day, as users type it. */
  function Name(d: Day): string
  {
    match d
    case Monday => "понедельник"
    case Tuesday => "вторник"
    case Wednesday => "среда"
    case Thursday => "четверг"
    case Friday => "пятница"
    case Saturday => "суббота"
    case Sunday => "воскресенье"
  }

  /** DAYS lists every day exactly once. */
  lemma DaysComplete(d: Day)
    ensures |DAYS| == 7 && d in DAYS
    ensures forall i, j :: 0 <= i < j < |DAYS| ==> DAYS[i] != DAYS[j]
  {
  }

  /** Position of a day in DAYS. */
  function Index(d: Day): (i: nat)
    ensures i < |DAYS| && DAYS[i] == d
  {
    match d
    case Monday => 0
    case Tuesday => 1
    case Wednesday => 2
    case Thursday => 3
    case Friday => 4
    case Saturday => 5
    case Sunday => 6
  }

  /** A day occurs neither before nor after its own position in DAYS. */
  lemma IndexSplits(d: Day)
    ensures d !in DAYS[..Index(d)] && d !in DAYS[Index(d) + 1..]
  {
    DaysComplete(d);
  }

  /** The first day in ds whose name is s, the membership test `day in DAYS`. */
  function Find(s: string, ds: seq<Day>): (r: Option<Day>)
    ensures r.Some? ==> r.value in ds && Name(r.value) == s
    ensures r.None? <==> forall d :: d in ds ==> Name(d) != s
  {
    if ds == [] then None
    else if Name(ds[0]) == s then Some(ds[0])
    else Find(s, ds[1..])
  }

  /** Two days never share a name. */
  lemma NameInjective(d: Day, e: Day)
    ensures Name(d) == Name(e) ==> d == e
  {
  }

  /** A name given to the bot is a day exactly when it is one of the seven names. */
  function FromName(s: string): (r: Option<Day>)
    ensures r.Some? ==> Name(r.value) == s
    ensures r.None? <==> forall d :: Name(d) != s
  {
    var r := Find(s, DAYS);
    assert forall d :: d in DAYS by {
      forall d ensures d in DAYS { DaysComplete(d); }
    }
    r
  }

  /** Every day name is one whitespace-free token of lower-case letters with no star. */
  lemma NameIsLowerWord(d: Day)
    ensures IsWord(Name(d))
    ensures forall i :: 0 <= i < |Name(d)| ==> IsLowerLetter(Name(d)[i]) && Name(d)[i] != '*'
  {
    var n := Name(d);
    assert forall i :: 0 <= i < |n| ==> IsLowerLetter(n[i]);
    assert forall c :: IsLowerLetter(c) ==> !IsSpace(c) && c != '*';
  }

  /** The heading of a day in the listings, `day.upper()`, as a table. */
  function Heading(d: Day): string
  {
    match d
    case Monday => "ПОНЕДЕЛЬНИК"
    case Tuesday => "ВТОРНИК"
    case Wednesday => "СРЕДА"
    case Thursday => "ЧЕТВЕРГ"
    case Friday => "ПЯТНИЦА"
    case Saturday => "СУББОТА"
    case Sunday => "ВОСКРЕСЕНЬЕ"
  }

  /** The table holds the upper-case form of each name. */
  lemma HeadingIsUpper(d: Day)
    ensures Heading(d) == Upper(Name(d))
  {
    var n := Name(d);
    assert |Heading(d)| == |n|;
    assert forall i :: 0 <= i < |n| ==> Heading(d)[i] == UpperChar(n[i]);
  }

  /** `day.title()` of a day name: the first letter upper-cased. */
  function Title(d: Day): string
  {
    [UpperChar(Name(d)[0])] + Name(d)[1..]
  }

  /** A capitalised day name typed back is lower-cased to the name. */
  lemma {:induction false} TitleLowers(d: Day)
    ensures Lower(Title(d)) == Name(d)
  {
    var n, t := Name(d), Title(d);
    NameIsLowerWord(d);
    assert LowerChar(UpperChar(n[0])) == n[0];
    forall i | 0 <= i < |n| ensures Lower(t)[i] == n[i] {
      if i > 0 {
        assert t[i] == n[i];
      }
    }
  }

  /** Lower-casing a heading gives back the name, so the upper-case spelling
      of a day is also accepted when typed. */
  lemma {:induction false} HeadingLowers(d: Day)
    ensures Lower(Heading(d)) == Name(d)
  {
    HeadingIsUpper(d);
    NameIsLowerWord(d);
    LowerUpper(Name(d));
  }
}
