// The two stored weeks (week.json and next_week.json) and the handlers that
// read and change them: handle_message, reset_week_if_needed, list_all and
// list_next. Each file is a field holding the schedule it contains; loading
// and saving the JSON text is not modelled.

module Storage {
  import opened Text
  import opened Days
  import opened Schedules
  import opened Messages
  import opened Listings

  /** The reset rule of reset_week_if_needed: on weekday 0 (Monday) the
      current week is replaced by the empty schedule. */
  function ResetCurrent(current: Schedule, weekday: int): (r: Schedule)
    ensures weekday == 0 ==> Complete(r) && forall d :: Entries(r, d) == []
    ensures weekday != 0 ==> r == current
  {
    if weekday == 0 then
      EmptyShape();
      Empty()
    else current
  }

  class Store {
    /** Content of week.json. */
    var current: Schedule
    /** Content of next_week.json. */
    var next: Schedule

    /** Both files hold a key for every day. */
    ghost predicate Valid()
      reads this
    {
      Complete(current) && Complete(next)
    }

    /** Neither file exists yet: load_data gives the empty schedule for both. */
    constructor ()
      ensures Valid()
      ensures current == Empty() && next == Empty()
    {
      EmptyShape();
      current := Empty();
      next := Empty();
    }

    /** Both files exist with the given contents. */
    constructor Open(current: Schedule, next: Schedule)
      requires Complete(current) && Complete(next)
      ensures Valid()
      ensures this.current == current && this.next == next
    {
      this.current := current;
      this.next := next;
    }

    /** load_data on one of the two files. */
    function Load(week: WeekLabel): Schedule
      reads this
    {
      if week == Current then current else next
    }

    /** save_data on one of the two files. */
    method Save(week: WeekLabel, s: Schedule)
      modifies this
      ensures week == Current ==> current == s && next == old(next)
      ensures week == Next ==> next == s && current == old(current)
    {
      if week == Current {
        current := s;
      } else {
        next := s;
      }
    }

    /** handle_message: parse the text; on a rejection change nothing, on an
        add append the name to that day of the selected week and save it. */
    method HandleMessage(text: string) returns (reply: string)
      requires Valid()
      modifies this
      ensures Valid()
      ensures reply == ReplyText(ParseMessage(text))
      ensures ParseMessage(text).Reject? ==> current == old(current) && next == old(next)
      ensures ParseMessage(text).Add? && ParseMessage(text).week == Current ==>
        current == Append(old(current), ParseMessage(text).day, ParseMessage(text).name) &&
        next == old(next)
      ensures ParseMessage(text).Add? && ParseMessage(text).week == Next ==>
        next == Append(old(next), ParseMessage(text).day, ParseMessage(text).name) &&
        current == old(current)
    {
      var command := ParseMessage(text);
      match command {
        case Reject(_) =>
        case Add(week, day, name) =>
          var data := Load(week);
          AppendComplete(data, day, name);
          data := Append(data, day, name);
          Save(week, data);
      }
      reply := ReplyText(command);
    }

    /** reset_week_if_needed, with the weekday given instead of read from the clock. */
    method ResetIfNeeded(weekday: int)
      requires Valid()
      modifies this
      ensures Valid()
      ensures current == ResetCurrent(old(current), weekday)
      ensures next == old(next)
    {
      if weekday == 0 {
        EmptyShape();
        Save(Current, Empty());
      }
    }

    /** list_all: reset if needed, then render the current week. */
    method ListCurrent(weekday: int) returns (text: string)
      requires Valid()
      modifies this
      ensures Valid()
      ensures current == ResetCurrent(old(current), weekday) && next == old(next)
      ensures text == Listing(CurrentTitle, current)
    {
      ResetIfNeeded(weekday);
      text := Render(CurrentTitle, Load(Current));
    }

    /** list_next: render the next week, which is never reset. */
    method ListNext() returns (text: string)
      ensures text == Listing(NextTitle, next)
    {
      text := Render(NextTitle, Load(Next));
    }
  }

  /** On any day but Monday, an entry sent as `<name> <day>` is confirmed
      and then listed under that day of the current week. */
  method AddThenListCurrent(current: Schedule, next: Schedule, name: string, day: Day, weekday: int)
    returns (reply: string, listing: string)
    requires Complete(current) && Complete(next) && IsWord(name)
    requires weekday != 0
    ensures reply == "Добавлено: " + name + " → " + Title(day)
    ensures listing == Listing(CurrentTitle, Append(current, day, name))
  {
    var store := new Store.Open(current, next);
    DayTokenAccepted(name, day, Current);
    reply := store.HandleMessage(name + " " + (Name(day) + Marker(Current)));
    listing := store.ListCurrent(weekday);
  }

  /** A starred day goes to the next week only: the current listing is
      unchanged apart from the Monday reset, the next-week listing gains the entry. */
  method AddThenListNext(current: Schedule, next: Schedule, name: string, day: Day, weekday: int)
    returns (thisWeek: string, nextWeek: string)
    requires Complete(current) && Complete(next) && IsWord(name)
    ensures thisWeek == Listing(CurrentTitle, ResetCurrent(current, weekday))
    ensures nextWeek == Listing(NextTitle, Append(next, day, name))
  {
    var store := new Store.Open(current, next);
    DayTokenAccepted(name, day, Next);
    var _ := store.HandleMessage(name + " " + (Name(day) + Marker(Next)));
    thisWeek := store.ListCurrent(weekday);
    nextWeek := store.ListNext();
  }

  /** On Monday every /list call empties the current week first, so an
      entry added that same Monday is not listed. */
  method MondayListShowsEmptyWeek(current: Schedule, next: Schedule, text: string)
    returns (listing: string)
    requires Complete(current) && Complete(next)
    ensures listing == Listing(CurrentTitle, Empty())
  {
    var store := new Store.Open(current, next);
    var _ := store.HandleMessage(text);
    listing := store.ListCurrent(0);
  }
}
