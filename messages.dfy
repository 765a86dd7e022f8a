// The free-text message grammar of handle_message (bot.py:88-110):
// `<name> <day>[*]`, validated against the day table, and the replies.

module Messages {
  import opened Text
  import opened Days

  /** Which of the two stored weeks a command addresses. */
  datatype WeekLabel = Current | Next

  datatype Error = WrongFormat | UnknownDay

  /** The outcome of reading one message: a rejection, or an entry to add. */
  datatype Command = Reject(error: Error) | Add(week: WeekLabel, day: Day, name: string)

  /** The suffix that selects a week on the day token. */
  function Marker(w: WeekLabel): string
  {
    if w == Next then "*" else ""
  }

  /** One trailing '*' selects the next week and is removed; any other
      token selects the current week and is kept whole. */
  function SelectWeek(token: string): (r: (WeekLabel, string))
    ensures r.0 == Next <==> |token| > 0 && token[|token| - 1] == '*'
    ensures token == r.1 + Marker(r.0)
  {
    if |token| > 0 && token[|token| - 1] == '*' then
      (Next, token[..|token| - 1])
    else
      (Current, token)
  }

  /** The lower-cased day token read as a week and a day: it is accepted
      exactly when it is a day name, optionally followed by one star. */
  function ParseDayToken(token: string): (r: Option<(WeekLabel, Day)>)
    ensures r.Some? ==> token == Name(r.value.1) + Marker(r.value.0)
    ensures r.None? <==> forall d, w :: token != Name(d) + Marker(w)
  {
    var (week, dayText) := SelectWeek(token);
    match FromName(dayText)
    case None =>
      assert forall d, w :: token != Name(d) + Marker(w) by {
        forall d, w ensures token != Name(d) + Marker(w) {
          NameIsLowerWord(d);
          var n := Name(d) + Marker(w);
          if w == Current {
            assert n == Name(d);
          } else {
            assert n[..|n| - 1] == Name(d);
          }
        }
      }
      None
    case Some(d) => Some((week, d))
  }

  /** What handle_message decides for a message text. */
  function ParseMessage(text: string): (c: Command)
    ensures c == Reject(WrongFormat) <==> |Split(text)| != 2
    ensures c == Reject(UnknownDay) <==>
      |Split(text)| == 2 && forall d, w :: Lower(Split(text)[1]) != Name(d) + Marker(w)
    ensures c.Add? ==>
      Split(text)[0] == c.name && Lower(Split(text)[1]) == Name(c.day) + Marker(c.week)
  {
    SplitStrip(text);
    var parts := Split(Strip(text));
    if |parts| != 2 then Reject(WrongFormat)
    else
      match ParseDayToken(Lower(parts[1]))
      case None => Reject(UnknownDay)
      case Some((week, day)) => Add(week, day, parts[0])
  }

  /** The prefix of the reply to an accepted entry. */
  const Confirmation: string := "Добавлено: "

  /** The text the bot replies with: only an accepted entry is confirmed,
      and the confirmation quotes the name as it was typed. */
  function ReplyText(c: Command): (r: string)
    ensures c.Add? <==> |r| >= |Confirmation| && r[..|Confirmation|] == Confirmation
    ensures c.Add? ==> |r| >= |Confirmation + c.name| && r[..|Confirmation + c.name|] == Confirmation + c.name
  {
    match c
    case Reject(WrongFormat) =>
      var r := "Неверный формат. Пример: Иванов понедельник";
      assert r[0] != Confirmation[0];
      r
    case Reject(UnknownDay) =>
      var r := "Неверный день недели.";
      assert r[0] != Confirmation[0];
      r
    case Add(_, day, name) =>
      var r := Confirmation + name + " → " + Title(day);
      assert (Confirmation + name) + (" → " + Title(day)) == r;
      r
  }

  /** Only the tokens matter: surrounding or repeated whitespace never
      changes the outcome. */
  lemma {:induction false} ParseDependsOnTokens(t1: string, t2: string)
    requires Split(t1) == Split(t2)
    ensures ParseMessage(t1) == ParseMessage(t2)
  {
    SplitStrip(t1);
    SplitStrip(t2);
  }

  /** A day token spells one week and one day only. */
  lemma {:induction false} DayTokenUnique(d1: Day, w1: WeekLabel, d2: Day, w2: WeekLabel)
    requires Name(d1) + Marker(w1) == Name(d2) + Marker(w2)
    ensures d1 == d2 && w1 == w2
  {
    var t := Name(d1) + Marker(w1);
    NameIsLowerWord(d1);
    NameIsLowerWord(d2);
    assert t[|t| - 1] == '*' <==> w1 == Next;
    assert t[|t| - 1] == '*' <==> w2 == Next;
    assert Name(d1) == t[..|Name(d1)|] == Name(d2);
    NameInjective(d1, d2);
  }

  /** A name and a day token, with any whitespace around them and any
      non-empty run of whitespace between them, give the add command the
      token spells, whatever its letter case. */
  lemma {:induction false} WellFormedMessage(p: string, name: string, q: string, token: string, r: string, d: Day, w: WeekLabel)
    requires AllSpace(p) && AllSpace(q) && AllSpace(r) && q != []
    requires IsWord(name) && IsWord(token)
    requires Lower(token) == Name(d) + Marker(w)
    ensures ParseMessage(p + name + q + token + r) == Add(w, d, name)
  {
    var text := p + name + q + token + r;
    SplitTwoWords(p, name, q, token, r);
    var c := ParseMessage(text);
    assert c.Add?;
    DayTokenUnique(c.day, c.week, d, w);
  }

  /** A day name as typed in lower case, with or without the star, is
      accepted for any name token. */
  lemma {:induction false} DayTokenAccepted(name: string, d: Day, w: WeekLabel)
    requires IsWord(name)
    ensures ParseMessage(name + " " + (Name(d) + Marker(w))) == Add(w, d, name)
  {
    var token := Name(d) + Marker(w);
    NameIsLowerWord(d);
    assert IsWord(token);
    assert Lower(token) == token;
    assert "" + name + " " + token + "" == name + " " + token;
    WellFormedMessage("", name, " ", token, "", d, w);
  }

  /** A token with two stars keeps one star after the strip and is rejected. */
  lemma {:induction false} DoubleStarRejected(d: Day)
    ensures ParseDayToken(Name(d) + "**") == None
  {
    var t := Name(d) + "**";
    assert t[|t| - 1] == '*' && t[|t| - 2] == '*';
    forall e, w ensures t != Name(e) + Marker(w) {
      NameIsLowerWord(e);
      var n := Name(e) + Marker(w);
      if w == Next {
        assert n[|n| - 2] != '*';
      } else {
        assert n[|n| - 1] != '*';
      }
    }
  }

  /** A lone star becomes the empty day name and is rejected. */
  lemma {:induction false} LoneStarRejected()
    ensures ParseDayToken("*") == None
  {
    forall e, w ensures "*" != Name(e) + Marker(w) {
      NameIsLowerWord(e);
    }
  }

  /** Example from the help text: a current-week entry for Monday. */
  lemma {:induction false} ExampleCurrentWeek()
    ensures ParseMessage("Иванов понедельник") == Add(Current, Monday, "Иванов")
  {
    var name, token := "Иванов", Name(Monday);
    assert IsWord(name);
    NameIsLowerWord(Monday);
    assert Lower(token) == token;
    assert "" + name + " " + token + "" == "Иванов понедельник";
    WellFormedMessage("", name, " ", token, "", Monday, Current);
  }

  /** The confirmation names the entry and the day, with the day capitalised. */
  lemma ExampleReply()
    ensures ReplyText(Add(Current, Monday, "Иванов")) == "Добавлено: Иванов → Понедельник"
  {
    assert ReplyText(Add(Current, Monday, "Иванов")) == Confirmation + "Иванов" + " → " + Title(Monday);
    assert Title(Monday) == "Понедельник";
    assert Confirmation + "Иванов" + " → " + "Понедельник" == "Добавлено: Иванов → Понедельник";
  }

  /** A starred, upper-case day token files the entry under the next week. */
  lemma {:induction false} ExampleNextWeek()
    ensures ParseMessage("Петров СРЕДА*") == Add(Next, Wednesday, "Петров")
  {
    var name, token := "Петров", "СРЕДА*";
    assert IsWord(name);
    assert Lower(token) == Name(Wednesday) + Marker(Next) by {
      HeadingLowers(Wednesday);
      assert token == Heading(Wednesday) + "*";
      assert Lower(token) == Lower(Heading(Wednesday)) + "*";
    }
    assert "" + name + " " + token + "" == "Петров СРЕДА*";
    WellFormedMessage("", name, " ", token, "", Wednesday, Next);
  }

  /** Tabs, newlines and repeated spaces separate tokens like one space. */
  lemma {:induction false} ExampleWhitespace()
    ensures ParseMessage(" Иванов\t\tпонедельник\n") == Add(Current, Monday, "Иванов")
  {
    var name, token := "Иванов", Name(Monday);
    assert IsWord(name);
    NameIsLowerWord(Monday);
    assert Lower(token) == token;
    assert " " + name + "\t\t" + token + "\n" == " Иванов\t\tпонедельник\n";
    WellFormedMessage(" ", name, "\t\t", token, "\n", Monday, Current);
  }
}
