# Demo page state, modelled in Dafny

This project models the in-memory state of two demo pages of a small Next.js/React
site, together with proofs about that state.

- **The advanced page** (`src/app/test2/page.js`, component `Test2`) has five pieces of state:
  - a tab bar with three tabs;
  - a todo list of `{id, text, completed}` items;
  - the text of the "add todo" input box;
  - a light/dark theme;
  - a flag for whether the modal is open.

  Its handlers add, toggle and delete todos, switch the theme, select a tab,
  open or close the modal, and "Clear All Data".
- **The interactive page** (`src/app/test1/page.js`, component `Test1`) has three pieces of state:
  - an integer counter with "+", "-" and Reset, and no clamp in either direction;
  - a three-field form draft (name, email, message) that input events update one field at a time;
  - a "submitted" flag that submitting raises.

The files and modules:

- `js_string.dfy`, module `JsString`: the guard of `addTodo` is JavaScript's
  `String.prototype.trim`. This module defines trim over the ECMAScript WhiteSpace and
  LineTerminator code points. It proves that the trimmed text is empty exactly when
  every character is one of those code points.
- `todo_list.dfy`, module `TodoList`: the todo item datatype, plus two pure functions.
  `toggleTodo`'s `map` is `Toggled`; `deleteTodo`'s `filter` is `Deleted`. Lemmas cover
  double toggling, absent ids, the unique-id case and how `Deleted` treats order.
- `advanced_page.dfy`, module `AdvancedPage`: the class `Test2`. Each React state hook
  is a field and each event handler is a method. A method's `modifies` frame names
  exactly the fields whose setters the handler calls, so "nothing else changes" is part
  of each contract. Every handler keeps the invariant that the active tab is the id of
  one of the three tabs.
- `interactive_page.dfy`, module `InteractivePage`: the class `Test1`, the `FormData`
  record and its one-field update `WithField`.

React batches setter calls and re-renders. A handler's setters are modelled as
assignments that take effect when the method returns. Only one handler runs at a
time. Every handler reads the state from the last render, and so does the model.

Two facts about the code shape the model:
- The theme is a string. On mount, whatever string storage holds is used unchecked.
  So the model keeps `theme` as a string, and the toggle sends every value other than
  `"light"` to `"light"`.
- Todo ids are `Date.now()` readings, and nothing checks that they differ. So uniqueness
  is a precondition of the lemmas that need it (`ToggledOne`, `DeletedOne`) and is not
  an invariant of the page.

## Model

| member | source | states |
|---|---|---|
| JsString.TrimStart | src/app/test2/page.js:41 | the result is a suffix of the input; it is empty or starts with a character trim keeps; everything dropped is whitespace |
| JsString.TrimEnd | src/app/test2/page.js:41 | the result is a prefix of the input; it is empty or ends with a character trim keeps; everything dropped is whitespace |
| JsString.Trim | src/app/test2/page.js:41 | `newTodo.trim()` is falsy (empty) exactly when every character of the input is ECMAScript whitespace or a line terminator; a non-empty result starts and ends with a kept character |
| JsString.TrimEmptyIffBlank | src/app/test2/page.js:41 | trimming both ends leaves nothing if and only if the input is blank (both directions) |
| TodoList.Toggled | src/app/test2/page.js:47-51 | toggleTodo's list has the same length and the same ids and texts in the same order; `completed` is flipped exactly on the items whose id equals the argument and kept on the rest |
| TodoList.ToggledTwice | src/app/test2/page.js:47-51 | toggling the same id twice returns the original list |
| TodoList.ToggledAbsent | src/app/test2/page.js:47-51 | toggling an id that no item has leaves the list unchanged |
| TodoList.ToggledOne | src/app/test2/page.js:47-51 | with unique ids, toggling item k's id changes item k's `completed` and nothing else |
| TodoList.ToggledKeepsUnique | src/app/test2/page.js:47-51 | toggling keeps ids unique |
| TodoList.Deleted | src/app/test2/page.js:53-55 | deleteTodo's list is no longer than the original, and no item in it has the deleted id |
| TodoList.DeletedMembers | src/app/test2/page.js:53-55 | an item is in deleteTodo's list if and only if it was in the original list with a different id |
| TodoList.DeletedAppend | src/app/test2/page.js:53-55 | deleting distributes over concatenation, so survivors keep their original relative order |
| TodoList.DeletedAbsent | src/app/test2/page.js:53-55 | deleting an id that no item has is a no-op |
| TodoList.DeletedOne | src/app/test2/page.js:53-55 | with unique ids, deleting item k's id gives exactly the list without item k, one item shorter |
| TodoList.DeletedSplit | src/app/test2/page.js:54 | deleting an id that only the middle item has removes just that item and keeps both sides in order |
| TodoList.DeletedKeepsUnique | src/app/test2/page.js:53-55 | deleting keeps ids unique |
| TodoList.AppendedKeepsUnique | src/app/test2/page.js:42 | appending an item with a fresh id keeps ids unique |
| AdvancedPage.ToggledTheme | src/app/test2/page.js:82 | the theme buttons (lines 82 and 179) always produce "light" or "dark"; the result is "dark" exactly when the old theme was "light" |
| AdvancedPage.ToggledThemeTwice | src/app/test2/page.js:179 | two toggles restore the theme if and only if it was "light" or "dark"; from any other stored value they end at "dark" |
| AdvancedPage.Test2.constructor | src/app/test2/page.js:6-10 | initial state: active tab "tab1", modal closed, no todos, empty input, theme "light"; the tab invariant holds |
| AdvancedPage.Test2.SetNewTodo | src/app/test2/page.js:120 | typing replaces the input text and changes nothing else |
| AdvancedPage.Test2.AddTodo | src/app/test2/page.js:40-45 | blank input leaves todos and input unchanged; otherwise exactly one item `{now, untrimmed input, false}` is appended after the unchanged earlier items and the input becomes empty; tab, modal and theme untouched |
| AdvancedPage.Test2.ToggleTodo | src/app/test2/page.js:47-51 | the list becomes `Toggled` of the old list; nothing else changes |
| AdvancedPage.Test2.DeleteTodo | src/app/test2/page.js:53-55 | the list becomes `Deleted` of the old list; nothing else changes |
| AdvancedPage.Test2.ToggleTheme | src/app/test2/page.js:82 | the theme becomes `ToggledTheme` of the old theme; nothing else changes |
| AdvancedPage.Test2.SelectTab | src/app/test2/page.js:96 | selecting one of the three tabs sets the active tab to its id ("tab1", "tab2" or "tab3") and keeps the tab invariant; nothing else changes |
| AdvancedPage.Test2.OpenModal | src/app/test2/page.js:193 | the modal is open; nothing else changes |
| AdvancedPage.Test2.CloseModal | src/app/test2/page.js:273 | the modal is closed; nothing else changes |
| AdvancedPage.Test2.ClearAllData | src/app/test2/page.js:200-204 | todos become empty and the theme becomes "light"; active tab, modal flag and input text are unchanged |
| AdvancedPage.AddThenDelete | src/app/test2/page.js:40-55 | adding "Write spec" to an empty list and deleting its id leaves the list empty |
| InteractivePage.WithField | src/app/test1/page.js:15-21 | an input event sets the named field to the value and leaves the other two fields unchanged |
| InteractivePage.Test1.constructor | src/app/test1/page.js:7-13 | initial state: name, email and message all empty, not submitted, count 0 |
| InteractivePage.Test1.Increment | src/app/test1/page.js:58 | the count grows by exactly 1 with no clamp (exact within the safe-integer range, see Left out); form and flag unchanged |
| InteractivePage.Test1.Decrement | src/app/test1/page.js:49 | the count shrinks by exactly 1 with no clamp, so it can go below zero (exact within the safe-integer range, see Left out); form and flag unchanged |
| InteractivePage.Test1.Reset | src/app/test1/page.js:65 | the count becomes 0 from any value; form and flag unchanged |
| InteractivePage.Test1.HandleInputChange | src/app/test1/page.js:15-21 | the form becomes `WithField` of the old form; count and flag unchanged |
| InteractivePage.Test1.HandleSubmit | src/app/test1/page.js:23-26 | the submitted flag is raised; the form and the count are unchanged |
| InteractivePage.IncrementThenDecrement | src/app/test1/page.js:49-58 | "+" then "-" restores the count from any value (within the safe-integer range in JavaScript) |
| InteractivePage.DecrementThenIncrement | src/app/test1/page.js:49-58 | "-" then "+" restores the count from any value (within the safe-integer range in JavaScript) |
| InteractivePage.DecrementFromStart | src/app/test1/page.js:49 | on a fresh page "-" gives -1: the count is not clamped at zero |

## Left out

- The network test page (`src/app/network-test/page.js`): it consists of fetch calls,
  response decoding, timestamps and browser introspection, with try/catch around that
  I/O. It is not part of this model.
- Browser storage. This covers loading todos and theme on mount (lines 13-23 of
  `src/app/test2/page.js`), saving them whenever they change (lines 26-32), the JSON
  encoding of the list, and `localStorage.clear()` in "Clear All Data". Only the
  in-memory effect of clearing is modelled.
- The `dark` class on the document element (lines 33-37): a styling side effect.
- InteractivePage.Test1.Increment: the count is a JavaScript Number, which is a double, and the model
  uses an unbounded `int`. The two agree while the count stays within the safe-integer
  range (magnitude at most 2^53). Beyond it, `count + 1` in JavaScript can round back
  to `count`, and the model does not capture that rounding.
- InteractivePage.Test1.Decrement: for the same reason, `count - 1` matches the model only while the
  count stays within the safe-integer range.
- InteractivePage.IncrementThenDecrement and InteractivePage.DecrementThenIncrement
  prove the round trips over unbounded integers. In JavaScript they hold only within the
  safe-integer range, for the reason given above.
- The clock: `Date.now()` is the `now` parameter of `AddTodo`.
- The three-second timer that lowers the "submitted" flag (line 26 of
  `src/app/test1/page.js`), and `preventDefault` on the submit event.
- Rendering: JSX, CSS classes, labels and navigation links. The modal's text says a
  click outside closes it, but no such handler exists, so only the Close button is
  modelled.
- The tab descriptor's `label` property is called `caption`, because `label` is a
  reserved word in Dafny.
- JavaScript strings are UTF-16 code units, and Dafny strings are Unicode scalar values.
  Every code point that trim removes lies in the Basic Multilingual Plane, so the guard
  of `AddTodo` is the same under either view.
