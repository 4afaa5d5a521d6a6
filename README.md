# Prioriti reminder store, modelled in Dafny

Prioriti is a single-screen iOS reminder app. Its only logic is a small
in-memory store kept in the SwiftUI view `ContentView`. The store holds an
ordered list of reminders (an identifier, a title and a date), the draft title
typed into the text field, and the draft date chosen in the date picker. Two
actions change the list:

- `addReminder` builds a reminder from the draft, appends it, clears the title
  and sets the draft date to now.
- the swipe-to-delete action removes the row at an index.

The add button is disabled while the draft title is empty. `isOverdue` tells
whether a reminder's date is before now.

The project has two modules:

- `model.dfy`, module `Reminders`, describes the state as values. It defines
  the state as a datatype `Store`, the two operations `Add` and `RemoveAt`, the
  query `IsOverdue`, and the replay of a sequence of user events (`Replay`).
  It proves the store's properties there: ids stay unique and are never
  reused, lengths add up, and titles stay non-empty when the store is driven
  through the button.
- `store.dfy`, module `ContentView`, is the view's state as an object. Its
  class is `ReminderStore`, whose fields change in place. Each method states
  the new value of every field and ties the new state to the functions in
  `Reminders`.

Platform calls are replaced by parameters:

- The wall clock `Date()` is a `now` parameter.
- `UUID()` is a counter `nextId` that is used once and then incremented, so
  every id is fresh.
- A `Date` is an integer `Time`: only comparison and equality of dates matter
  here.

## Model

| member | source | states |
|---|---|---|
| `ContentView.ReminderStore.constructor` | Prioriti/ContentView.swift:18-20 | A new view has no reminders, an empty draft title, the draft date now, and satisfies the id invariant. |
| `ContentView.ReminderStore.EditDraft` | Prioriti/ContentView.swift:30-36 | The text field and date picker bindings set the draft title and date. The list and the id source are unchanged, and the new state is what `Reminders.Step` gives for that edit. |
| `ContentView.ReminderStore.AddReminder` | Prioriti/ContentView.swift:108-113 | Exactly one reminder is appended at the end, with the draft's title and date and an id that no stored reminder has. Earlier reminders are unchanged. Afterwards the title is empty, the draft date is now, and the ids stay distinct. |
| `ContentView.ReminderStore.PressAddButton` | Prioriti/ContentView.swift:47-56 | While the title is empty the disabled button changes nothing. Otherwise it does exactly what `addReminder` does. |
| `ContentView.ReminderStore.Delete` | Prioriti/ContentView.swift:89-95 | Given an index of an existing row, the new list is the old one without that element, in the same order. The draft and the id source are unchanged, and the ids stay distinct. |
| `ContentView.BuyMilkThenCallMom` | Prioriti/ContentView.swift:108-113 | On a fresh view, add "Buy milk", add "Call mom", delete row 0: one reminder is left, "Call mom" with its date. |
| `ContentView.BlankTitleAddsNothing` | Prioriti/ContentView.swift:56 | On a fresh view with an empty title, pressing the add button leaves the list empty. |
| `Reminders.Initial` | Prioriti/ContentView.swift:18-20 | The state at first appearance (no reminders, empty title, draft date now, counter 0) satisfies the id invariant, and every stored title is non-empty. |
| `Reminders.Add` | Prioriti/ContentView.swift:108-113 | This is the definition of `addReminder`, with no contract of its own. `AddAppendsDraft`, `AddResetsDraft`, `AddIdIsFresh` and `AddPreservesValid` state its properties. |
| `Reminders.IsOverdue` | Prioriti/ContentView.swift:140-142 | This is the definition of `isOverdue` (`date < now`), with no contract of its own. `IsOverdueMonotone` and `IsOverdueStraddle` state its properties. |
| `Reminders.Step` | Prioriti/ContentView.swift:91 | One event gives no state (the trap of `remove(at:)`) exactly when it is a removal at an index outside the list. Edits and adds always succeed. |
| `Reminders.RemoveAt` | Prioriti/ContentView.swift:91 | The result is one element shorter. Elements before the index are the same, each element from the index on is its successor from before, and the draft and id source are unchanged. |
| `Reminders.RemoveMiddleExample` | Prioriti/ContentView.swift:91 | Removing index 1 from [A, B, C] gives [A, C]. |
| `Reminders.RemoveAtPreservesValid` | Prioriti/ContentView.swift:91 | A removal keeps the ids pairwise distinct and below the id counter. |
| `Reminders.RemoveAtIds` | Prioriti/ContentView.swift:91 | A removal adds no new id to the list. |
| `Reminders.AddAppendsDraft` | Prioriti/ContentView.swift:109-110 | Adding grows the list by one. The old list is a prefix of the new one, and the new last element has the draft's title and date. |
| `Reminders.AddResetsDraft` | Prioriti/ContentView.swift:111-112 | After adding, the draft title is empty and the draft date is the `now` passed in. |
| `Reminders.AddIdIsFresh` | Prioriti/ContentView.swift:12 | The new reminder's id is not the id of any reminder already stored. |
| `Reminders.AddPreservesValid` | Prioriti/ContentView.swift:109-110 | An add keeps the ids pairwise distinct and below the id counter. |
| `Reminders.IsOverdueMonotone` | Prioriti/ContentView.swift:140-142 | A reminder that is overdue at some moment is still overdue at every later moment. |
| `Reminders.IsOverdueStraddle` | Prioriti/ContentView.swift:140-142 | Asked at a moment at or before the reminder's date it is not overdue. Asked at a later moment it is. |
| `Reminders.ReplayLength` | Prioriti/ContentView.swift:108-113 | After a run of edits, N adds and M removals in which no removal traps, the length is the starting length plus N minus M. |
| `Reminders.ReplayPreservesValid` | Prioriti/ContentView.swift:11-20 | Across any run of events the ids stay pairwise distinct and below the counter, and the counter never goes back. |
| `Reminders.ReplayNeverReusesIds` | Prioriti/ContentView.swift:12 | An id that was handed out but is no longer stored never appears again in any later state. |
| `Reminders.GuardedReplayKeepsTitles` | Prioriti/ContentView.swift:56 | If every add happens while the button is enabled, every reminder stored afterwards has a non-empty title, given that this held at the start. |
| `Reminders.ReplayBuyMilkThenCallMom` | Prioriti/ContentView.swift:108-113 | From the initial state, replaying the edits, two adds and a delete of row 0 ends in exactly the state [Call mom (id 1, its date)], with an empty title, the last `now` as draft date, and counter 2. |

## Left out

- Layout and rendering (`body`, date formatting, colours): these are user interface only.
- `scheduleNotification` is a wrapper around the platform notification API, and `addReminder` never calls it.
- `requestNotificationPermission` is a platform permission request whose asynchronous callback only logs errors.
- `Codable` conformance of `Reminder`: the library does the encoding, and nothing in the view uses it.
- UUID generation: the model uses a counter, so fresh ids are modelled but their random 128-bit text form is not.
- Dates: a `Date` is a floating-point count of seconds. The model uses an integer `Time`, so sub-second precision and floating-point comparison are not modelled.
- Removal at an index that does not exist traps in Swift. The class's `Delete` requires a valid index, because the list only offers its own rows. `Reminders.Replay` returns `None` for such a removal.
- SwiftUI `@State` storage and re-rendering: the model treats the three fields as plain mutable fields of one object.
