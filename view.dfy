/** What the page shows from the grouped store: the grid tiles and the body of the detail view. */
module View {
  import opened Wrappers
  import opened Tasks

  /** How many tasks a grid tile lists before it switches to the overflow counter. */
  const PreviewSize: nat := 4

  /** A grid tile: its day, the tasks it lists, and the "+N lainnya" counter when shown. */
  datatype Tile = Tile(day: string, preview: seq<Todo>, more: Option<nat>)

  /** The body of the detail view: the empty-state note, the full task list, or the
      `TypeError` the page throws when the day has no bucket at all. */
  datatype DetailBody = EmptyNote | Items(items: seq<Todo>) | Crash

  function Min(a: nat, b: nat): nat {
    if a < b then a else b
  }

  /** The tile of `day`: `todosByDay[day]?.slice(0, 4)` and, when the bucket is longer than
      four, `todosByDay[day].length - 4`. A missing bucket lists nothing. */
  function TileFor(todosByDay: map<string, seq<Todo>>, day: string): (t: Tile)
    ensures t.day == day
    ensures day !in todosByDay ==> t.preview == [] && t.more == None
    ensures day in todosByDay ==>
              |t.preview| == Min(PreviewSize, |todosByDay[day]|) &&
              t.preview <= todosByDay[day]
    ensures t.more.Some? <==> day in todosByDay && |todosByDay[day]| > PreviewSize
    ensures t.more.Some? ==> t.more.value > 0 && |t.preview| + t.more.value == |todosByDay[day]|
  {
    if day !in todosByDay then Tile(day, [], None)
    else
      var bucket := todosByDay[day];
      if |bucket| > PreviewSize then Tile(day, bucket[..PreviewSize], Some(|bucket| - PreviewSize))
      else Tile(day, bucket, None)
  }

  /** The detail body as the page computes it: the note when `todosByDay[day]?.length === 0`,
      otherwise `todosByDay[day].map(...)`, which throws when the bucket is missing. */
  function DetailAsWritten(todosByDay: map<string, seq<Todo>>, day: string): (b: DetailBody)
    ensures b == Crash <==> day !in todosByDay
    ensures b == EmptyNote <==> day in todosByDay && todosByDay[day] == []
    ensures b.Items? ==> day in todosByDay && b.items == todosByDay[day] && b.items != []
  {
    if day in todosByDay && |todosByDay[day]| == 0 then EmptyNote
    else if day in todosByDay then Items(todosByDay[day])
    else Crash
  }

  /** The detail body with a missing bucket read as an empty one: it never crashes, shows the
      note exactly when the day has no task, and otherwise lists the whole bucket. */
  function DetailFor(todosByDay: map<string, seq<Todo>>, day: string): (b: DetailBody)
    ensures b != Crash
    ensures b == EmptyNote <==> day !in todosByDay || todosByDay[day] == []
    ensures b.Items? ==> day in todosByDay && b.items == todosByDay[day]
    ensures day in todosByDay ==> b == DetailAsWritten(todosByDay, day)
  {
    if day !in todosByDay || |todosByDay[day]| == 0 then EmptyNote
    else Items(todosByDay[day])
  }
}
