/** The Todo entity of the browser client (public/javascripts/app.js):
    a record copied from a server-returned object, two mutators of the
    completion flag, and the month/year group label. */
module Todos {
  import opened Wrappers

  /** A plain task record as the server returns it. Day, month and year
      may be null on the wire, hence Option. */
  datatype Props = Props(
    id: int,
    title: string,
    day: Option<string>,
    month: Option<string>,
    year: Option<string>,
    completed: bool,
    description: string)

  /** JavaScript truthiness of a nullable string: null and "" are falsy. */
  predicate Present(v: Option<string>)
  {
    v.Some? && v.value != ""
  }

  const Separator: char := '/'

  /** The group label of a month/year pair: absent unless both are present,
      otherwise the month, a slash and the full (four-digit) year. */
  function GroupLabel(month: Option<string>, year: Option<string>): (r: Option<string>)
    ensures r.None? <==> !Present(month) || !Present(year)
    ensures r.Some? ==>
      && |r.value| == |month.value| + 1 + |year.value|
      && r.value[..|month.value|] == month.value
      && r.value[|month.value|] == Separator
      && r.value[|month.value| + 1..] == year.value
  {
    if !Present(month) || !Present(year) then None
    else Some(month.value + [Separator] + year.value)
  }

  /** The index of the first separator in s, if there is one. */
  function FirstSeparator(s: string): (r: Option<nat>)
    ensures r.None? <==> Separator !in s
    ensures r.Some? ==> r.value < |s| && s[r.value] == Separator
    ensures r.Some? ==> forall j :: 0 <= j < r.value ==> s[j] != Separator
  {
    if s == [] then None
    else if s[0] == Separator then Some(0)
    else
      match FirstSeparator(s[1..])
      case None => None
      case Some(i) => Some(i + 1)
  }

  /** Reads a group label back into its month and year parts, splitting at
      the first separator; the inverse of GroupLabel on slash-free months. */
  function SplitLabel(s: string): (r: Option<(string, string)>)
    ensures r.None? <==> Separator !in s
    ensures r.Some? ==> r.value.0 + [Separator] + r.value.1 == s && Separator !in r.value.0
  {
    match FirstSeparator(s)
    case None => None
    case Some(i) =>
      assert s == s[..i] + [Separator] + s[i + 1..];
      assert forall j :: 0 <= j < i ==> s[..i][j] != Separator;
      Some((s[..i], s[i + 1..]))
  }

  /** A label built from a slash-free month splits back into that month
      and year. */
  lemma LabelRoundTrip(month: Option<string>, year: Option<string>)
    requires month.Some? ==> Separator !in month.value
    ensures GroupLabel(month, year).Some? ==>
      SplitLabel(GroupLabel(month, year).value) == Some((month.value, year.value))
  {
  }

  /** Two present labels agree only when months and years agree, provided
      months contain no separator (they are numeric strings). */
  lemma LabelInjective(m1: Option<string>, y1: Option<string>, m2: Option<string>, y2: Option<string>)
    requires m1.Some? ==> Separator !in m1.value
    requires m2.Some? ==> Separator !in m2.value
    requires GroupLabel(m1, y1).Some? && GroupLabel(m1, y1) == GroupLabel(m2, y2)
    ensures m1 == m2 && y1 == y2
  {
  }

  /** The record after toggle(): the completion flag negated, the rest kept. */
  function Toggled(p: Props): (r: Props)
    ensures r.completed == !p.completed
    ensures r.(completed := p.completed) == p
  {
    p.(completed := !p.completed)
  }

  /** The record after complete(): completed, the rest kept. */
  function Completed(p: Props): (r: Props)
    ensures r.completed
    ensures r.(completed := p.completed) == p
  {
    p.(completed := true)
  }

  lemma ToggledInvolution(p: Props)
    ensures Toggled(Toggled(p)) == p
  {
  }

  lemma CompletedIdempotent(p: Props)
    ensures Completed(Completed(p)) == Completed(p)
  {
  }

  /** The label of a month and a full year, as the code computes it. */
  lemma FullYearLabel()
    ensures GroupLabel(Some("04"), Some("2019")) == Some("04/2019")
    ensures GroupLabel(Some("04"), None) == None
    ensures GroupLabel(Some(""), Some("2019")) == None
  {
    assert "04" + [Separator] + "2019" == "04/2019";
  }

  class Todo {
    var id: int
    var title: string
    var day: Option<string>
    var month: Option<string>
    var year: Option<string>
    var completed: bool
    var description: string

    /** The seven fields as a record. */
    function State(): Props
      reads this
    {
      Props(id, title, day, month, year, completed, description)
    }

    constructor (props: Props)
      ensures State() == props
    {
      id := props.id;
      title := props.title;
      day := props.day;
      month := props.month;
      year := props.year;
      completed := props.completed;
      description := props.description;
    }

    method Toggle()
      modifies this`completed
      ensures completed == !old(completed)
      ensures State() == Toggled(old(State()))
    {
      completed := !completed;
    }

    method Complete()
      modifies this`completed
      ensures completed
      ensures State() == Completed(old(State()))
    {
      completed := true;
    }

    /** The frame says the label depends on month and year alone. */
    function GroupString(): (r: Option<string>)
      reads this`month, this`year
      ensures r == GroupLabel(month, year)
    {
      if !Present(month) || !Present(year) then None
      else Some(month.value + "/" + year.value)
    }
  }

  /** Toggling twice restores the whole object; the label never moves. */
  method ToggleTwice(t: Todo)
    modifies t
    ensures t.State() == old(t.State())
    ensures t.GroupString() == old(t.GroupString())
  {
    t.Toggle();
    t.Toggle();
    ToggledInvolution(old(t.State()));
  }

  /** A second complete() changes nothing. */
  method CompleteTwice(t: Todo)
    modifies t
    ensures t.State() == Completed(old(t.State()))
    ensures t.GroupString() == old(t.GroupString())
  {
    t.Complete();
    ghost var once := t.State();
    t.Complete();
    assert t.State() == once;
  }
}
