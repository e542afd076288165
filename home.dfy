/** The `Home` page component: its five pieces of state, the transitions its handlers make,
    and what it renders from them. Each remote call is replaced by its reply, passed in. */
module HomePage {
  import opened Wrappers
  import opened Tasks
  import opened JsText
  import opened View

  /** The notification texts, one per operation and outcome (a successful load shows none). */
  const LoadFailed := "Gagal memuat to do."
  const AddDone := "To do berhasil ditambahkan!"
  const AddFailed := "Gagal menambahkan to do."
  const DeleteDone := "To do berhasil dihapus!"
  const DeleteFailed := "Gagal menghapus to do."
  const CompleteDone := "To do telah dikerjakan!"
  const CompleteFailed := "Gagal menyelesaikan to do."

  /** One snapshot of the component's state; `selectedDay` is `null` as `None`. */
  datatype PageState = PageState(
    todosByDay: map<string, seq<Todo>>,
    selectedDay: Option<string>,
    text: string,
    message: string,
    darkMode: bool)

  /** The state the component starts in: nothing loaded, grid view, light theme. */
  const Initial := PageState(map[], None, "", "", false)

  /** What every reachable state satisfies: the store is either still the initial `{}` or
      has exactly the seven label keys, each bucket holds only tasks of its own day, and a
      selected day is one of the labels. */
  predicate WellFormed(s: PageState) {
    (s.todosByDay == map[] || s.todosByDay.Keys == DaySet) &&
    (forall d, t :: d in s.todosByDay && t in s.todosByDay[d] ==> t.day == d) &&
    (s.selectedDay.Some? ==> s.selectedDay.value in DaySet)
  }

  /** `!selectedDay` in the page: no day is selected when the selection is `null` or `""`. */
  predicate NoDaySelected(selectedDay: Option<string>) {
    selectedDay.None? || selectedDay.value == ""
  }

  /** The body posted to create a task. */
  datatype Draft = Draft(text: string, day: string, completed: bool)

  /** The remote calls the page makes: list all, create, delete by id, mark completed. */
  datatype Request = GetAll | Post(draft: Draft) | Delete(id: string) | Put(id: string, completed: bool)

  /** The reply to a request whose response body is used: the data, or a failure. */
  datatype Reply<T> = Ok(value: T) | Failed

  /** The guard and body of `addTodo`: nothing is posted when the text is blank after
      trimming or no day is selected; otherwise the text goes out exactly as typed. */
  function AddRequest(text: string, selectedDay: Option<string>): (r: Option<Draft>)
    ensures r.None? <==> AllWhitespace(text) || selectedDay.None? || selectedDay.value == ""
    ensures r.Some? ==> r.value == Draft(text, selectedDay.value, false)
  {
    TrimEmptyIffBlank(text);
    if Trim(text) == [] || NoDaySelected(selectedDay) then None
    else Some(Draft(text, selectedDay.value, false))
  }

  /** The main area: the grid of tiles, or the detail view of one day. */
  datatype MainView = Grid(tiles: seq<Tile>) | Detail(day: string, body: DetailBody)

  /** A rendered page: theme class, notification banner and main area. */
  datatype Screen = Screen(dark: bool, banner: Option<string>, main: MainView)

  /** What the page shows for a state: the banner exactly when the message is non-empty,
      the grid exactly when no day is selected (one tile per label, in label order), and
      otherwise the corrected detail body of the selected day (`DetailFor`), which never
      crashes where the page as written does (see `DetailAsWritten`). */
  function Render(s: PageState): (v: Screen)
    ensures v.dark == s.darkMode
    ensures v.banner.Some? <==> s.message != ""
    ensures v.banner.Some? ==> v.banner.value == s.message
    ensures v.main.Grid? <==> s.selectedDay.None? || s.selectedDay.value == ""
    ensures v.main.Grid? ==>
              |v.main.tiles| == |Days| &&
              forall i :: 0 <= i < |Days| ==> v.main.tiles[i] == TileFor(s.todosByDay, Days[i])
    ensures v.main.Detail? ==>
              v.main.day == s.selectedDay.value && v.main.body != Crash &&
              v.main.body == DetailFor(s.todosByDay, v.main.day)
  {
    var banner := if s.message == "" then None else Some(s.message);
    if NoDaySelected(s.selectedDay) then
      Screen(s.darkMode, banner, Grid(seq(|Days|, i requires 0 <= i < |Days| => TileFor(s.todosByDay, Days[i]))))
    else
      var day := s.selectedDay.value;
      Screen(s.darkMode, banner, Detail(day, DetailFor(s.todosByDay, day)))
  }

  /** The component, one field per `useState` hook; each method is one handler's effect.
      The page offers the tile click only in the grid and the other controls only in the
      detail view; the methods do not require the view, which none of their contracts needs. */
  class Home {
    var todosByDay: map<string, seq<Todo>>
    var selectedDay: Option<string>
    var text: string
    var message: string
    var darkMode: bool

    function Snapshot(): PageState
      reads this
    {
      PageState(todosByDay, selectedDay, text, message, darkMode)
    }

    predicate Valid()
      reads this
    {
      WellFormed(Snapshot())
    }

    constructor ()
      ensures Valid() && Snapshot() == Initial
    {
      todosByDay := map[];
      selectedDay := None;
      text := "";
      message := "";
      darkMode := false;
    }

    /** `fetchAllTodos` once its GET has answered: on data, the store becomes the data
        grouped by day and nothing else changes; on failure only the message changes. */
    method FetchAllTodos(reply: Reply<seq<Todo>>)
      requires Valid()
      modifies this
      ensures Valid()
      ensures reply.Ok? ==> Snapshot() == old(Snapshot()).(todosByDay := Group(reply.value))
      ensures reply.Failed? ==> Snapshot() == old(Snapshot()).(message := LoadFailed)
    {
      match reply
      case Ok(todos) =>
        var grouped := GroupByDay(todos);
        todosByDay := grouped;
      case Failed =>
        message := LoadFailed;
    }

    /** `addTodo`, given whether the POST succeeds. A failed guard sends nothing and changes
        nothing. A successful POST clears the input, starts a reload and sets the success
        message; a failed one sets only the failure message. */
    method AddTodo(ok: bool) returns (sent: seq<Request>)
      requires Valid()
      modifies this
      ensures Valid()
      ensures AddRequest(old(text), old(selectedDay)).None? ==>
                sent == [] && Snapshot() == old(Snapshot())
      ensures AddRequest(old(text), old(selectedDay)).Some? && ok ==>
                sent == [Post(AddRequest(old(text), old(selectedDay)).value), GetAll] &&
                Snapshot() == old(Snapshot()).(text := "", message := AddDone)
      ensures AddRequest(old(text), old(selectedDay)).Some? && !ok ==>
                sent == [Post(AddRequest(old(text), old(selectedDay)).value)] &&
                Snapshot() == old(Snapshot()).(message := AddFailed)
    {
      var draft := AddRequest(text, selectedDay);
      if draft.None? {
        return [];
      }
      if ok {
        text := "";
        sent := [Post(draft.value), GetAll];
        message := AddDone;
      } else {
        sent := [Post(draft.value)];
        message := AddFailed;
      }
    }

    /** `deleteTodo(id)`, given whether the DELETE succeeds: a success starts a reload and
        sets the success message, a failure sets only the failure message. */
    method DeleteTodo(id: string, ok: bool) returns (sent: seq<Request>)
      requires Valid()
      modifies this
      ensures Valid()
      ensures ok ==> sent == [Delete(id), GetAll] && Snapshot() == old(Snapshot()).(message := DeleteDone)
      ensures !ok ==> sent == [Delete(id)] && Snapshot() == old(Snapshot()).(message := DeleteFailed)
    {
      if ok {
        sent := [Delete(id), GetAll];
        message := DeleteDone;
      } else {
        sent := [Delete(id)];
        message := DeleteFailed;
      }
    }

    /** `completeTodo(id)`, given whether the PUT of `{completed: true}` succeeds. */
    method CompleteTodo(id: string, ok: bool) returns (sent: seq<Request>)
      requires Valid()
      modifies this
      ensures Valid()
      ensures ok ==> sent == [Put(id, true), GetAll] && Snapshot() == old(Snapshot()).(message := CompleteDone)
      ensures !ok ==> sent == [Put(id, true)] && Snapshot() == old(Snapshot()).(message := CompleteFailed)
    {
      if ok {
        sent := [Put(id, true), GetAll];
        message := CompleteDone;
      } else {
        sent := [Put(id, true)];
        message := CompleteFailed;
      }
    }

    /** A click on the tile of `day`: the detail view of that day opens, nothing else changes. */
    method SelectDay(day: string)
      requires Valid() && day in DaySet
      modifies this
      ensures Valid()
      ensures Snapshot() == old(Snapshot()).(selectedDay := Some(day))
    {
      selectedDay := Some(day);
    }

    /** The back button: the grid comes back, nothing else changes. */
    method Back()
      requires Valid()
      modifies this
      ensures Valid()
      ensures Snapshot() == old(Snapshot()).(selectedDay := None)
    {
      selectedDay := None;
    }

    /** Typing in the input of the detail view: the text becomes the input's value. */
    method EditText(value: string)
      requires Valid()
      modifies this
      ensures Valid()
      ensures Snapshot() == old(Snapshot()).(text := value)
    {
      text := value;
    }

    /** The theme switch: `darkMode` flips, nothing else changes. */
    method ToggleDarkMode()
      requires Valid()
      modifies this
      ensures Valid()
      ensures Snapshot() == old(Snapshot()).(darkMode := !old(darkMode))
    {
      darkMode := !darkMode;
    }
  }

  /** Flipping the theme switch twice gives back the state it started from. */
  method ToggleDarkModeTwice(page: Home)
    requires page.Valid()
    modifies page
    ensures page.Snapshot() == old(page.Snapshot())
  {
    page.ToggleDarkMode();
    page.ToggleDarkMode();
  }

  /** In any reachable state with a day selected, the page as written crashes exactly when no
      load has succeeded yet; after one, it agrees with the rendered detail. */
  lemma CrashOnlyBeforeLoad(s: PageState)
    requires WellFormed(s) && s.selectedDay.Some?
    ensures DetailAsWritten(s.todosByDay, s.selectedDay.value) == Crash <==> s.todosByDay == map[]
    ensures s.todosByDay != map[] ==> Render(s).main.body == DetailAsWritten(s.todosByDay, s.selectedDay.value)
  {
  }

  /** A day opened after the first load failed: the page as written reaches `.map` on the
      missing bucket, while the rendered detail (missing bucket read as empty) shows the note. */
  method OpenDayAfterFailedLoad() returns (asWritten: DetailBody, shown: DetailBody)
    ensures asWritten == Crash
    ensures shown == EmptyNote
  {
    var page := new Home();
    page.FetchAllTodos(Failed);
    page.SelectDay("Senin");
    asWritten := DetailAsWritten(page.todosByDay, "Senin");
    shown := Render(page.Snapshot()).main.body;
  }
}
