/** The advanced demo page: a tab bar, a todo list with an input box, a light/dark
    theme switch, a modal dialog and a "Clear All Data" button. */
module AdvancedPage {
  import opened JsString
  import opened TodoList

  /** One button of the tab bar. */
  datatype TabInfo = TabInfo(id: string, caption: string, content: string)

  /** The three tabs, in the order the tab bar shows them. */
  const Tabs: seq<TabInfo> := [
    TabInfo("tab1", "Todo List", "tab1"),
    TabInfo("tab2", "Settings", "tab2"),
    TabInfo("tab3", "About", "tab3")
  ]

  /** `s` is the id of one of the tabs. */
  predicate IsTabId(s: string) {
    exists tab :: tab in Tabs && tab.id == s
  }

  /** Where either theme button takes the theme: "light" goes to "dark", and
      any other value, "dark" or whatever storage held, goes to "light". */
  function ToggledTheme(theme: string): (r: string)
    ensures r == "light" || r == "dark"
    ensures r == "dark" <==> theme == "light"
  {
    if theme == "light" then "dark" else "light"
  }

  /** Toggling twice restores the theme exactly when it was one of the two
      themes; from any other value it ends at "dark". */
  lemma ToggledThemeTwice(theme: string)
    ensures ToggledTheme(ToggledTheme(theme)) == theme <==> theme == "light" || theme == "dark"
    ensures ToggledTheme(ToggledTheme(theme)) == (if theme == "light" then "light" else "dark")
  {
  }

  /** The component's state. Each field is one useState hook; each method is an
      event handler, and its frame names exactly the hooks whose setters it calls. */
  class Test2 {
    var activeTab: string
    var showModal: bool
    var todos: seq<Todo>
    var newTodo: string
    var theme: string

    /** The active tab is always the id of one of the three tabs. Only SelectTab
        writes the active tab; every handler keeps this invariant. */
    ghost predicate Valid()
      reads this
    {
      IsTabId(activeTab)
    }

    /** The state on first render, before storage is read. */
    constructor ()
      ensures Valid()
      ensures activeTab == "tab1" && !showModal
      ensures todos == [] && newTodo == "" && theme == "light"
    {
      activeTab := "tab1";
      showModal := false;
      todos := [];
      newTodo := "";
      theme := "light";
      assert Tabs[0] in Tabs;
    }

    /** Typing in the todo input box replaces its text. */
    method SetNewTodo(value: string)
      requires Valid()
      modifies this`newTodo
      ensures Valid()
      ensures newTodo == value
    {
      newTodo := value;
    }

    /** The Add button (or Enter in the input box), with `now` standing for the
      clock reading that becomes the new item's id. A blank input changes
      nothing; otherwise the untrimmed input is appended as one uncompleted item
      and the input box is cleared. */
    method AddTodo(now: int)
      requires Valid()
      modifies this`todos, this`newTodo
      ensures Valid()
      ensures IsBlank(old(newTodo)) ==> todos == old(todos) && newTodo == old(newTodo)
      ensures !IsBlank(old(newTodo)) ==>
        todos == old(todos) + [Todo(now, old(newTodo), false)] && newTodo == ""
    {
      if Trim(newTodo) != [] {
        todos := todos + [Todo(now, newTodo, false)];
        newTodo := "";
      }
    }

    /** The checkbox of an item: flips `completed` on the items with this id. */
    method ToggleTodo(id: int)
      requires Valid()
      modifies this`todos
      ensures Valid()
      ensures todos == Toggled(old(todos), id)
    {
      todos := Toggled(todos, id);
    }

    /** The Delete button of an item: drops the items with this id. */
    method DeleteTodo(id: int)
      requires Valid()
      modifies this`todos
      ensures Valid()
      ensures todos == Deleted(old(todos), id)
    {
      todos := Deleted(todos, id);
    }

    /** The header's theme button and the Settings tab's Dark Mode switch. */
    method ToggleTheme()
      requires Valid()
      modifies this`theme
      ensures Valid()
      ensures theme == ToggledTheme(old(theme))
    {
      theme := ToggledTheme(theme);
    }

    /** A tab button: makes that tab the active one. */
    method SelectTab(tab: TabInfo)
      requires tab in Tabs
      modifies this`activeTab
      ensures Valid() && activeTab == tab.id
    {
      activeTab := tab.id;
    }

    /** The "Open Modal Test" button. */
    method OpenModal()
      requires Valid()
      modifies this`showModal
      ensures Valid()
      ensures showModal
    {
      showModal := true;
    }

    /** The modal's Close button, the only way the modal closes. */
    method CloseModal()
      requires Valid()
      modifies this`showModal
      ensures Valid()
      ensures !showModal
    {
      showModal := false;
    }

    /** "Clear All Data": empties the list and restores the light theme; the
      active tab, the modal and the input box keep their values. */
    method ClearAllData()
      requires Valid()
      modifies this`todos, this`theme
      ensures Valid()
      ensures todos == [] && theme == "light"
    {
      todos := [];
      theme := "light";
    }
  }

  /** Adding "Write spec" at time `now` and then deleting that id leaves a list
      that started empty empty again. */
  method AddThenDelete(page: Test2, now: int)
    requires page.Valid() && page.todos == []
    modifies page
    ensures page.todos == []
  {
    page.SetNewTodo("Write spec");
    page.AddTodo(now);
    page.DeleteTodo(now);
  }
}
