// One week's schedule (the content of week.json or next_week.json):
// each day maps to the names entered for it, in the order they came.

module Schedules {
  import opened Days

  type Schedule = map<Day, seq<string>>

  /** `data.get(day, [])`: a day that is missing reads as no entries. */
  function Entries(s: Schedule, d: Day): seq<string>
  {
    if d in s then s[d] else []
  }

  /** Every day of the table is a key, so `data[day]` cannot fail. */
  predicate Complete(s: Schedule)
  {
    forall d: Day :: d in s
  }

  /** The schedule used when no file exists and by the weekly reset:
      `{day: [] for day in DAYS}`. */
  function Empty(): (r: Schedule)
    ensures Complete(r)
    ensures forall d :: r[d] == []
  {
    assert forall d :: d in DAYS by {
      forall d ensures d in DAYS { DaysComplete(d); }
    }
    map d | d in DAYS :: []
  }

  /** The default schedule has exactly the seven day keys, each with no entries. */
  lemma EmptyShape()
    ensures Complete(Empty()) && |Empty()| == 7
    ensures forall d :: Empty()[d] == [] && Entries(Empty(), d) == []
  {
    var keys := {Monday, Tuesday, Wednesday, Thursday, Friday, Saturday, Sunday};
    forall d: Day ensures d in Empty() { DaysComplete(d); }
    assert Empty().Keys == keys;
    assert |keys| == 7;
  }

  /** `data[day].append(name)`: the name goes to the end of that day's list,
      stored exactly as typed, and no other day changes. */
  function Append(s: Schedule, d: Day, name: string): (r: Schedule)
    requires d in s
    ensures r.Keys == s.Keys
    ensures |r[d]| == |s[d]| + 1 && r[d][..|s[d]|] == s[d] && r[d][|s[d]|] == name
    ensures forall e :: e in s && e != d ==> r[e] == s[e]
  {
    s[d := s[d] + [name]]
  }

  /** Adding keeps every day addressable. */
  lemma AppendComplete(s: Schedule, d: Day, name: string)
    requires Complete(s)
    ensures Complete(Append(s, d, name))
  {
  }

  /** Entries seen through `get` after an add: the day gains the name at the
      end and every other day reads as before. */
  lemma AppendEntries(s: Schedule, d: Day, name: string, e: Day)
    requires d in s
    ensures Entries(Append(s, d, name), e) ==
      if e == d then Entries(s, d) + [name] else Entries(s, e)
  {
    var r := Append(s, d, name);
    if e == d {
      assert r[d] == r[d][..|s[d]|] + [r[d][|s[d]|]];
    }
  }
}
