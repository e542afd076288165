/** Tasks as the remote API returns them, the seven weekday labels of the page,
    and the grouping of one fetched list into a bucket per label. */
module Tasks {

  /** One task record: the `_id`, `text`, `day` and `completed` fields of the API's JSON. */
  datatype Todo = Todo(id: string, text: string, day: string, completed: bool)

  /** The weekday labels, in the order the grid shows its tiles. */
  const Days: seq<string> := ["Senin", "Selasa", "Rabu", "Kamis", "Jumat", "Sabtu", "Minggu"]

  /** The same labels as a set: the keys of a grouped store. */
  const DaySet: set<string> := {"Senin", "Selasa", "Rabu", "Kamis", "Jumat", "Sabtu", "Minggu"}

  predicate Distinct(ds: seq<string>) {
    forall i, j :: 0 <= i < j < |ds| ==> ds[i] != ds[j]
  }

  /** The labels are seven different strings, and `DaySet` holds exactly them. */
  lemma DaysAreSevenLabels()
    ensures Distinct(Days)
    ensures |Days| == |DaySet| == 7
    ensures forall d :: d in DaySet <==> d in Days
  {
  }

  /** `todos.filter(todo => todo.day === day)`: the tasks of one day, in fetched order. */
  function OnDay(todos: seq<Todo>, day: string): (r: seq<Todo>)
    ensures |r| <= |todos|
    ensures forall i :: 0 <= i < |r| ==> r[i].day == day && r[i] in todos
    ensures forall t :: t in todos && t.day == day ==> t in r
  {
    if todos == [] then []
    else if todos[0].day == day then [todos[0]] + OnDay(todos[1..], day)
    else OnDay(todos[1..], day)
  }

  /** Filtering distributes over concatenation, so a bucket keeps the fetched relative order. */
  lemma {:induction false} OnDayAppend(a: seq<Todo>, b: seq<Todo>, day: string)
    ensures OnDay(a + b, day) == OnDay(a, day) + OnDay(b, day)
  {
    if a == [] {
      assert a + b == b;
    } else {
      assert (a + b)[1..] == a[1..] + b;
      OnDayAppend(a[1..], b, day);
    }
  }

  /** A bucket holds every task of its day exactly as many times as the fetched list does,
      and no task of another day. */
  lemma {:induction false} OnDayCount(todos: seq<Todo>, day: string, t: Todo)
    ensures multiset(OnDay(todos, day))[t] == if t.day == day then multiset(todos)[t] else 0
  {
    if todos != [] {
      assert todos == [todos[0]] + todos[1..];
      OnDayCount(todos[1..], day, t);
    }
  }

  /** The result of the fetch, grouped: one bucket per label, built from the labels alone. */
  function Group(todos: seq<Todo>): (g: map<string, seq<Todo>>)
    ensures g.Keys == DaySet
    ensures forall d, t :: d in g && t in g[d] ==> t.day == d && t in todos
    ensures forall t :: t in todos && t.day in DaySet ==> t.day in g && t in g[t.day]
  {
    map d | d in DaySet :: OnDay(todos, d)
  }

  /** The loop of `fetchAllTodos`: assign one key per label, in label order. */
  method GroupByDay(todos: seq<Todo>) returns (grouped: map<string, seq<Todo>>)
    ensures grouped == Group(todos)
  {
    grouped := map[];
    for i := 0 to |Days|
      invariant forall d :: d in grouped <==> d in Days[..i]
      invariant forall d :: d in grouped ==> grouped[d] == OnDay(todos, d)
    {
      grouped := grouped[Days[i] := OnDay(todos, Days[i])];
    }
    assert Days[..|Days|] == Days;
    GroupedByLabel(todos, grouped);
  }

  lemma GroupedByLabel(todos: seq<Todo>, grouped: map<string, seq<Todo>>)
    requires forall d :: d in grouped <==> d in Days
    requires forall d :: d in grouped ==> grouped[d] == OnDay(todos, d)
    ensures grouped == Group(todos)
  {
  }

  /** The tasks whose day is one of `labels`, in fetched order. */
  function InLabels(todos: seq<Todo>, labels: set<string>): (r: seq<Todo>)
    ensures |r| <= |todos|
    ensures forall i :: 0 <= i < |r| ==> r[i].day in labels
  {
    if todos == [] then []
    else if todos[0].day in labels then [todos[0]] + InLabels(todos[1..], labels)
    else InLabels(todos[1..], labels)
  }

  /** The sum of the sizes of the buckets named in `ds`. */
  function Total(g: map<string, seq<Todo>>, ds: seq<string>): nat
    requires forall d :: d in ds ==> d in g
  {
    if ds == [] then 0 else |g[ds[0]]| + Total(g, ds[1..])
  }

  lemma {:induction false} InLabelsNone(todos: seq<Todo>)
    ensures InLabels(todos, {}) == []
  {
    if todos != [] {
      InLabelsNone(todos[1..]);
    }
  }

  /** Adding one more label adds exactly that label's tasks. */
  lemma {:induction false} InLabelsAddOne(todos: seq<Todo>, labels: set<string>, e: string)
    requires e !in labels
    ensures |InLabels(todos, labels + {e})| == |InLabels(todos, labels)| + |OnDay(todos, e)|
  {
    if todos != [] {
      InLabelsAddOne(todos[1..], labels, e);
    }
  }

  lemma {:induction false} TotalCounts(todos: seq<Todo>, ds: seq<string>)
    requires Distinct(ds)
    requires forall d :: d in ds ==> d in DaySet
    ensures Total(Group(todos), ds) == |InLabels(todos, set d | d in ds)|
  {
    if ds == [] {
      assert (set d | d in ds) == {};
      InLabelsNone(todos);
    } else {
      var rest := ds[1..];
      assert Distinct(rest);
      TotalCounts(todos, rest);
      var labels := set d | d in rest;
      assert ds[0] !in labels by {
        assert forall j :: 0 <= j < |rest| ==> rest[j] == ds[j + 1];
      }
      InLabelsAddOne(todos, labels, ds[0]);
      assert (set d | d in ds) == labels + {ds[0]};
    }
  }

  /** Partition with drop: the seven buckets together hold exactly the fetched tasks whose day
      is a known label; a task with any other day is in no bucket. */
  lemma GroupSizes(todos: seq<Todo>)
    ensures Total(Group(todos), Days) == |InLabels(todos, DaySet)|
    ensures forall t, d :: t in todos && t.day !in DaySet && d in Group(todos) ==> t !in Group(todos)[d]
  {
    DaysAreSevenLabels();
    TotalCounts(todos, Days);
    assert (set d | d in Days) == DaySet;
  }
}
