// The week listing of list_all and list_next (bot.py:49-86): a title, then
// one section per day in table order, built up by a loop.

module Listings {
  import opened Text
  import opened Days
  import opened Schedules

  const CurrentTitle: string := "Текущая неделя:\n\n"
  const NextTitle: string := "Следующая неделя:\n\n"

  /** The line shown for a day with no entries. */
  const Placeholder: string := "- (пусто)\n"

  function EntryLine(name: string): string
  {
    "- " + name + "\n"
  }

  /** `''.join(f"- {name}\n" for name in names)`. */
  function EntryLines(names: seq<string>): (r: string)
    ensures r == "" <==> names == []
    ensures r != "" ==> r[|r| - 1] == '\n'
  {
    if names == [] then "" else EntryLine(names[0]) + EntryLines(names[1..])
  }

  /** The section of one day: its upper-case heading, then its entries or
      the placeholder, then a blank line. */
  function Section(d: Day, s: Schedule): string
  {
    var names := Entries(s, d);
    if names != [] then Heading(d) + ":\n" + EntryLines(names) + "\n"
    else Heading(d) + ":\n" + Placeholder + "\n"
  }

  function Sections(ds: seq<Day>, s: Schedule): string
  {
    if ds == [] then "" else Section(ds[0], s) + Sections(ds[1..], s)
  }

  /** The whole reply: the title and the sections of all days in DAYS order. */
  function Listing(title: string, s: Schedule): string
  {
    title + Sections(DAYS, s)
  }

  /** The rendering loop, appending one section per day to the result. */
  method Render(title: string, s: Schedule) returns (result: string)
    ensures result == Listing(title, s)
  {
    result := title;
    for i := 0 to |DAYS|
      invariant result == title + Sections(DAYS[..i], s)
    {
      var day := DAYS[i];
      result := AppendSection(result, day, Entries(s, day));
      ListingStep(title, DAYS, i, s);
    }
    assert DAYS[..|DAYS|] == DAYS;
  }

  /** The body of the loop: the heading line, then the entry lines or the
      placeholder, then a blank line, appended to the text built so far. */
  method AppendSection(text: string, day: Day, names: seq<string>) returns (result: string)
    ensures forall s :: Entries(s, day) == names ==> result == text + Section(day, s)
  {
    if names != [] {
      result := text + (Heading(day) + ":\n" + EntryLines(names) + "\n");
    } else {
      result := text + (Heading(day) + ":\n" + Placeholder + "\n");
    }
  }

  /** One round of the loop: the section of the next day goes after what was built. */
  lemma {:induction false} ListingSnoc(title: string, ds: seq<Day>, d: Day, s: Schedule)
    ensures title + Sections(ds + [d], s) == (title + Sections(ds, s)) + Section(d, s)
  {
    SectionsSnoc(ds, d, s);
    ConcatAssoc(title, Sections(ds, s), Section(d, s));
  }

  lemma ListingStep(title: string, ds: seq<Day>, i: nat, s: Schedule)
    requires i < |ds|
    ensures title + Sections(ds[..i + 1], s) == (title + Sections(ds[..i], s)) + Section(ds[i], s)
  {
    assert ds[..i + 1] == ds[..i] + [ds[i]];
    ListingSnoc(title, ds[..i], ds[i], s);
  }

  /** Stated once and called with the exact terms, so that each use is one
      instance rather than a search through the sequence axioms. */
  lemma ConcatAssoc(a: string, b: string, c: string)
    ensures (a + b) + c == a + (b + c)
  {
  }

  lemma {:induction false} SectionsSnoc(ds: seq<Day>, d: Day, s: Schedule)
    ensures Sections(ds + [d], s) == Sections(ds, s) + Section(d, s)
  {
    SectionsAppend(ds, [d], s);
    assert [d][1..] == [];
  }

  /** The sections of two runs of days are the two renderings run together. */
  lemma {:induction false} SectionsAppend(a: seq<Day>, b: seq<Day>, s: Schedule)
    ensures Sections(a + b, s) == Sections(a, s) + Sections(b, s)
  {
    if a == [] {
      assert a + b == b;
    } else {
      assert (a + b)[0] == a[0];
      assert (a + b)[1..] == a[1..] + b;
      SectionsAppend(a[1..], b, s);
    }
  }

  /** The lines of two runs of names are the two renderings run together. */
  lemma {:induction false} EntryLinesAppend(xs: seq<string>, ys: seq<string>)
    ensures EntryLines(xs + ys) == EntryLines(xs) + EntryLines(ys)
  {
    if xs == [] {
      assert xs + ys == ys;
    } else {
      assert (xs + ys)[0] == xs[0];
      assert (xs + ys)[1..] == xs[1..] + ys;
      EntryLinesAppend(xs[1..], ys);
    }
  }

  /** Each stored name has its own `- name` line, after the lines of the
      names stored before it and before those stored after it. */
  lemma {:induction false} EntryLinesAt(names: seq<string>, k: nat)
    requires k < |names|
    ensures EntryLines(names) ==
      EntryLines(names[..k]) + EntryLine(names[k]) + EntryLines(names[k + 1..])
  {
    assert names == names[..k] + ([names[k]] + names[k + 1..]);
    EntryLinesAppend(names[..k], [names[k]] + names[k + 1..]);
    assert ([names[k]] + names[k + 1..])[1..] == names[k + 1..];
  }

  /** The listing puts the section of each day between the sections of the
      days before it and after it in DAYS. */
  lemma {:induction false} ListingAt(title: string, s: Schedule, d: Day)
    ensures Listing(title, s) ==
      title + Sections(DAYS[..Index(d)], s) + Section(d, s) + Sections(DAYS[Index(d) + 1..], s)
  {
    var i := Index(d);
    var pre, post := Sections(DAYS[..i], s), Sections(DAYS[i + 1..], s);
    assert DAYS == DAYS[..i] + ([d] + DAYS[i + 1..]);
    SectionsAppend(DAYS[..i], [d] + DAYS[i + 1..], s);
    assert ([d] + DAYS[i + 1..])[1..] == DAYS[i + 1..];
    assert Sections(DAYS, s) == pre + (Section(d, s) + post);
    ConcatAssoc(pre, Section(d, s), post);
    ConcatAssoc(title, pre + Section(d, s), post);
    ConcatAssoc(title, pre, Section(d, s));
  }

  /** The placeholder is an ordinary entry line: a day whose only entry is
      the name `(пусто)` renders exactly like a day with no entries. */
  lemma PlaceholderLooksEmpty(d: Day, s: Schedule)
    ensures Section(d, s[d := ["(пусто)"]]) == Section(d, s[d := []])
  {
    assert EntryLines(["(пусто)"]) == Placeholder;
  }

  /** Days that read the same in two schedules render the same. */
  lemma {:induction false} SectionsFrame(ds: seq<Day>, s: Schedule, t: Schedule)
    requires forall i :: 0 <= i < |ds| ==> Entries(s, ds[i]) == Entries(t, ds[i])
    ensures Sections(ds, s) == Sections(ds, t)
  {
    if ds != [] {
      SectionsFrame(ds[1..], s, t);
    }
  }

  /** After an add, the day's section ends with a `- name` line after the
      lines of the entries it already had. */
  lemma {:induction false} SectionAfterAppend(s: Schedule, d: Day, name: string)
    requires d in s
    ensures Section(d, Append(s, d, name)) ==
      Heading(d) + ":\n" + (EntryLines(Entries(s, d)) + EntryLine(name)) + "\n"
  {
    AppendEntries(s, d, name, d);
    EntryLinesAppend(Entries(s, d), [name]);
    assert EntryLines([name]) == EntryLine(name);
  }

  /** An add to a day outside ds leaves the sections of ds as they were. */
  lemma {:induction false} SectionsAfterOtherAppend(ds: seq<Day>, s: Schedule, d: Day, name: string)
    requires d in s && d !in ds
    ensures Sections(ds, Append(s, d, name)) == Sections(ds, s)
  {
    forall k | 0 <= k < |ds| ensures Entries(Append(s, d, name), ds[k]) == Entries(s, ds[k]) {
      AppendEntries(s, d, name, ds[k]);
    }
    SectionsFrame(ds, Append(s, d, name), s);
  }

  /** After an add, that day's section is its heading, its old entry lines,
      then a `- name` line (a day that was empty loses its `- (пусто)` line);
      every other section is as before. */
  lemma {:induction false} ListingAfterAppend(title: string, s: Schedule, d: Day, name: string)
    requires d in s
    ensures Listing(title, Append(s, d, name)) ==
      title + Sections(DAYS[..Index(d)], s)
      + (Heading(d) + ":\n" + (EntryLines(Entries(s, d)) + EntryLine(name)) + "\n")
      + Sections(DAYS[Index(d) + 1..], s)
  {
    var i := Index(d);
    ListingAt(title, Append(s, d, name), d);
    IndexSplits(d);
    SectionsAfterOtherAppend(DAYS[..i], s, d, name);
    SectionsAfterOtherAppend(DAYS[i + 1..], s, d, name);
    SectionAfterAppend(s, d, name);
  }
}
