/**
 * The state of the Prioriti view as an object whose fields change in place:
 * `addReminder` appends to the list and then overwrites the draft, the
 * swipe-to-delete action removes one element of the list. Each method says
 * what the new state is, field by field, and equates it with the value-level
 * operation of module Reminders (Initial, Add, RemoveAt, Step) about which the
 * store's properties are proved.
 */
module ContentView {
  import Reminders

  class ReminderStore {
    /** The reminders, in the order they were added. */
    var reminders: seq<Reminders.Reminder>
    /** The text typed into the title field. */
    var draftTitle: string
    /** The date chosen in the date picker. */
    var draftDate: Reminders.Time
    /** The fresh-identifier source standing in for `UUID()`. */
    var nextId: nat

    /** The fields as one value. */
    function State(): Reminders.Store
      reads this
    {
      Reminders.Store(reminders, draftTitle, draftDate, nextId)
    }

    ghost predicate Valid()
      reads this
    {
      Reminders.Valid(State())
    }

    /** The view's initial state: no reminders, an empty title, the draft date now. */
    constructor (now: Reminders.Time)
      ensures Valid()
      ensures State() == Reminders.Initial(now)
    {
      reminders := [];
      draftTitle := "";
      draftDate := now;
      nextId := 0;
    }

    /** Typing a title and picking a date, through the two-way bindings of the input fields. */
    method EditDraft(title: string, date: Reminders.Time)
      requires Valid()
      modifies this
      ensures Valid()
      ensures draftTitle == title && draftDate == date
      ensures reminders == old(reminders) && nextId == old(nextId)
      ensures Reminders.Step(old(State()), Reminders.EditDraft(title, date)) == Reminders.Some(State())
    {
      draftTitle := title;
      draftDate := date;
    }

    /**
     * `addReminder`: appends one reminder built from the draft under a fresh
     * identifier, then clears the title and sets the draft date to now.
     */
    method AddReminder(now: Reminders.Time)
      requires Valid()
      modifies this
      ensures Valid()
      ensures |reminders| == |old(reminders)| + 1
      ensures reminders[..|old(reminders)|] == old(reminders)
      ensures reminders[|old(reminders)|].title == old(draftTitle)
      ensures reminders[|old(reminders)|].date == old(draftDate)
      ensures reminders[|old(reminders)|].id !in Reminders.Ids(old(reminders))
      ensures draftTitle == "" && draftDate == now
      ensures State() == Reminders.Add(old(State()), now)
    {
      Reminders.AddIdIsFresh(State(), now);
      Reminders.AddPreservesValid(State(), now);
      var reminder := Reminders.Reminder(nextId, draftTitle, draftDate);
      reminders := reminders + [reminder];
      nextId := nextId + 1;
      draftTitle := "";
      draftDate := now;
    }

    /**
     * The add button, which is disabled while the title is empty: with an
     * empty title nothing changes, otherwise it runs `addReminder`.
     */
    method PressAddButton(now: Reminders.Time)
      requires Valid()
      modifies this
      ensures Valid()
      ensures old(draftTitle) == "" ==> State() == old(State())
      ensures old(draftTitle) != "" ==> State() == Reminders.Add(old(State()), now)
    {
      if draftTitle != "" {
        AddReminder(now);
      }
    }

    /**
     * The swipe-to-delete action, `reminders.remove(at: index)`. The index
     * must name a row that exists (the list only offers its own rows).
     */
    method Delete(index: int)
      requires Valid()
      requires 0 <= index < |reminders|
      modifies this
      ensures Valid()
      ensures reminders == old(reminders)[..index] + old(reminders)[index + 1..]
      ensures draftTitle == old(draftTitle) && draftDate == old(draftDate) && nextId == old(nextId)
      ensures State() == Reminders.RemoveAt(old(State()), index)
    {
      Reminders.RemoveAtPreservesValid(State(), index);
      reminders := reminders[..index] + reminders[index + 1..];
    }
  }

  /**
   * The end-to-end example on a fresh view: add "Buy milk", add "Call mom",
   * delete the first row. Only "Call mom" is left, with its date.
   */
  method BuyMilkThenCallMom(start: Reminders.Time, milkDate: Reminders.Time, momDate: Reminders.Time,
                            t1: Reminders.Time, t2: Reminders.Time)
    returns (left: seq<Reminders.Reminder>)
    ensures |left| == 1
    ensures left[0].title == "Call mom" && left[0].date == momDate
  {
    var view := new ReminderStore(start);
    view.EditDraft("Buy milk", milkDate);
    view.AddReminder(t1);
    view.EditDraft("Call mom", momDate);
    view.AddReminder(t2);
    view.Delete(0);
    left := view.reminders;
  }

  /** An empty title keeps the add button disabled: pressing it leaves a fresh view empty. */
  method BlankTitleAddsNothing(start: Reminders.Time, now: Reminders.Time)
    returns (left: seq<Reminders.Reminder>)
    ensures left == []
  {
    var view := new ReminderStore(start);
    view.PressAddButton(now);
    left := view.reminders;
  }
}
