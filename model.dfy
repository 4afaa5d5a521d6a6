/**
 * The reminder store of the Prioriti app, as values.
 *
 * The app keeps its whole state in three fields of one SwiftUI view: the list
 * of reminders, the draft title and the draft date. This module describes that
 * state as a datatype, the two operations that change the list (add from the
 * draft, remove at an index) as functions on it, the overdue query, and the
 * replay of a sequence of user actions, with the properties the app relies on.
 *
 * Two platform calls are replaced: the wall clock `Date()` becomes a `now`
 * parameter, and `UUID()` becomes a counter `nextId` that hands out each id once.
 */
module Reminders {

  /** A point in time, in whole seconds. */
  type Time = int

  datatype Option<+T> = None | Some(value: T)

  /** One reminder: an identifier fixed at creation, a title and a due date. */
  datatype Reminder = Reminder(id: nat, title: string, date: Time)

  /**
   * The view's state: the reminders in insertion order, the draft being typed,
   * and the source of fresh identifiers.
   */
  datatype Store = Store(reminders: seq<Reminder>, draftTitle: string, draftDate: Time, nextId: nat)

  /** The state when the view appears: nothing stored, empty title, date now. */
  function Initial(now: Time): (s: Store)
    ensures Valid(s) && AllTitled(s.reminders)
  {
    Store([], "", now, 0)
  }

  /** No two reminders share an identifier. */
  predicate DistinctIds(rs: seq<Reminder>) {
    forall i, j :: 0 <= i < j < |rs| ==> rs[i].id != rs[j].id
  }

  /** Every identifier in the list was handed out before `next`. */
  predicate IdsBelow(rs: seq<Reminder>, next: nat) {
    forall k :: 0 <= k < |rs| ==> rs[k].id < next
  }

  /** The invariant of the store: identifiers are unique and none is reused. */
  predicate Valid(s: Store) {
    DistinctIds(s.reminders) && IdsBelow(s.reminders, s.nextId)
  }

  /** Every stored reminder has a non-empty title. */
  predicate AllTitled(rs: seq<Reminder>) {
    forall k :: 0 <= k < |rs| ==> rs[k].title != ""
  }

  /** The identifiers in the list. */
  function Ids(rs: seq<Reminder>): set<nat> {
    set k | 0 <= k < |rs| :: rs[k].id
  }

  /**
   * `addReminder`: build a reminder from the draft with a fresh identifier,
   * append it, clear the title and set the draft date to now. The function
   * itself does not look at the title; only the button is disabled on empty.
   */
  function Add(s: Store, now: Time): Store {
    Store(s.reminders + [Reminder(s.nextId, s.draftTitle, s.draftDate)], "", now, s.nextId + 1)
  }

  /**
   * The swipe-to-delete action, `reminders.remove(at: index)`: exactly the
   * element at `index` goes, the others keep their order, the draft stays.
   */
  function RemoveAt(s: Store, index: int): (t: Store)
    requires 0 <= index < |s.reminders|
    ensures |t.reminders| == |s.reminders| - 1
    ensures forall k :: 0 <= k < index ==> t.reminders[k] == s.reminders[k]
    ensures forall k :: index <= k < |t.reminders| ==> t.reminders[k] == s.reminders[k + 1]
    ensures t.draftTitle == s.draftTitle && t.draftDate == s.draftDate && t.nextId == s.nextId
  {
    s.(reminders := s.reminders[..index] + s.reminders[index + 1..])
  }

  /** `isOverdue`: the reminder's date lies strictly before now. */
  predicate IsOverdue(r: Reminder, now: Time) {
    r.date < now
  }

  /** Adding appends one reminder carrying the draft, and leaves the earlier ones as they were. */
  lemma AddAppendsDraft(s: Store, now: Time)
    ensures |Add(s, now).reminders| == |s.reminders| + 1
    ensures Add(s, now).reminders[..|s.reminders|] == s.reminders
    ensures Add(s, now).reminders[|s.reminders|].title == s.draftTitle
    ensures Add(s, now).reminders[|s.reminders|].date == s.draftDate
  {
  }

  /** After adding, the draft title is empty and the draft date is the given now. */
  lemma AddResetsDraft(s: Store, now: Time)
    ensures Add(s, now).draftTitle == "" && Add(s, now).draftDate == now
  {
  }

  /** The identifier of the new reminder is not one already in the list. */
  lemma AddIdIsFresh(s: Store, now: Time)
    requires Valid(s)
    ensures Add(s, now).reminders[|s.reminders|].id !in Ids(s.reminders)
  {
  }

  lemma AddPreservesValid(s: Store, now: Time)
    requires Valid(s)
    ensures Valid(Add(s, now))
  {
  }

  lemma RemoveAtPreservesValid(s: Store, index: int)
    requires Valid(s) && 0 <= index < |s.reminders|
    ensures Valid(RemoveAt(s, index))
  {
    var t := RemoveAt(s, index);
    forall i, j | 0 <= i < j < |t.reminders|
      ensures t.reminders[i].id != t.reminders[j].id
    {
      var i' := if i < index then i else i + 1;
      var j' := if j < index then j else j + 1;
      assert t.reminders[i] == s.reminders[i'] && t.reminders[j] == s.reminders[j'];
    }
  }

  /** Removing keeps what is left a sub-list of what was there: no identifier appears. */
  lemma RemoveAtIds(s: Store, index: int)
    requires 0 <= index < |s.reminders|
    ensures Ids(RemoveAt(s, index).reminders) <= Ids(s.reminders)
  {
    var t := RemoveAt(s, index);
    forall x | x in Ids(t.reminders) ensures x in Ids(s.reminders) {
      var k :| 0 <= k < |t.reminders| && t.reminders[k].id == x;
      var k' := if k < index then k else k + 1;
      assert s.reminders[k'].id == x;
    }
  }

  /** The example of the delete action: [A, B, C] with the middle one removed gives [A, C]. */
  lemma RemoveMiddleExample(a: Reminder, b: Reminder, c: Reminder, title: string, date: Time, next: nat)
    ensures RemoveAt(Store([a, b, c], title, date, next), 1).reminders == [a, c]
  {
  }

  /** A reminder overdue at one moment stays overdue at every later moment. */
  lemma IsOverdueMonotone(r: Reminder, earlier: Time, later: Time)
    requires earlier <= later
    ensures IsOverdue(r, earlier) ==> IsOverdue(r, later)
  {
  }

  /** Checked at two moments that straddle its date, a reminder is first not overdue, then overdue. */
  lemma IsOverdueStraddle(r: Reminder, before: Time, after: Time)
    requires before <= r.date < after
    ensures !IsOverdue(r, before) && IsOverdue(r, after)
  {
  }

  /**
   * What the user can do to the state: type into the title field or pick a
   * date (the two-way bindings of the text field and the date picker), call
   * `addReminder`, or swipe to delete the row at an index.
   */
  datatype Event = EditDraft(title: string, date: Time) | AddReminder(now: Time) | Delete(index: int)

  /** One event; `None` when a removal index is out of range, where `remove(at:)` traps. */
  function Step(s: Store, e: Event): (r: Option<Store>)
    ensures r.None? <==> e.Delete? && !(0 <= e.index < |s.reminders|)
  {
    match e
    case EditDraft(title, date) => Some(s.(draftTitle := title, draftDate := date))
    case AddReminder(now) => Some(Add(s, now))
    case Delete(index) => if 0 <= index < |s.reminders| then Some(RemoveAt(s, index)) else None
  }

  /** A sequence of events, in order; `None` if any of them traps. */
  function Replay(s: Store, evs: seq<Event>): Option<Store>
    decreases |evs|
  {
    if evs == [] then Some(s)
    else match Step(s, evs[0])
      case None => None
      case Some(s') => Replay(s', evs[1..])
  }

  function Adds(evs: seq<Event>): nat
    decreases |evs|
  {
    if evs == [] then 0 else (if evs[0].AddReminder? then 1 else 0) + Adds(evs[1..])
  }

  function Deletes(evs: seq<Event>): nat
    decreases |evs|
  {
    if evs == [] then 0 else (if evs[0].Delete? then 1 else 0) + Deletes(evs[1..])
  }

  /**
   * The add button is disabled while the draft title is empty, so in a run
   * driven through the user interface every `addReminder` finds a title.
   */
  predicate Guarded(s: Store, evs: seq<Event>)
    decreases |evs|
  {
    evs == [] ||
    ((evs[0].AddReminder? ==> s.draftTitle != "") &&
     match Step(s, evs[0])
     case None => true
     case Some(s') => Guarded(s', evs[1..]))
  }

  /** After N adds and M removals that did not trap, the list has grown by N and shrunk by M. */
  lemma {:induction false} ReplayLength(s: Store, evs: seq<Event>, t: Store)
    requires Replay(s, evs) == Some(t)
    ensures |t.reminders| + Deletes(evs) == |s.reminders| + Adds(evs)
    decreases |evs|
  {
    if evs != [] {
      var s' := Step(s, evs[0]).value;
      ReplayLength(s', evs[1..], t);
    }
  }

  /** Across any run of adds, removals and edits, identifiers stay pairwise distinct and are never reused. */
  lemma {:induction false} ReplayPreservesValid(s: Store, evs: seq<Event>, t: Store)
    requires Valid(s) && Replay(s, evs) == Some(t)
    ensures Valid(t)
    ensures s.nextId <= t.nextId
    decreases |evs|
  {
    if evs != [] {
      var s' := Step(s, evs[0]).value;
      match evs[0] {
        case EditDraft(_, _) =>
        case AddReminder(now) => AddPreservesValid(s, now);
        case Delete(index) => RemoveAtPreservesValid(s, index);
      }
      ReplayPreservesValid(s', evs[1..], t);
    }
  }

  /** A reminder that was removed never comes back: its identifier is gone for good. */
  lemma {:induction false} ReplayNeverReusesIds(s: Store, evs: seq<Event>, t: Store, x: nat)
    requires Valid(s) && Replay(s, evs) == Some(t)
    requires x < s.nextId && x !in Ids(s.reminders)
    ensures x !in Ids(t.reminders)
    decreases |evs|
  {
    if evs != [] {
      var s' := Step(s, evs[0]).value;
      match evs[0] {
        case EditDraft(_, _) =>
        case AddReminder(now) =>
          AddPreservesValid(s, now);
          forall y | y in Ids(s'.reminders) ensures y in Ids(s.reminders) || y == s.nextId {
            var k :| 0 <= k < |s'.reminders| && s'.reminders[k].id == y;
            if k < |s.reminders| { assert s.reminders[k] == s'.reminders[k]; }
          }
        case Delete(index) =>
          RemoveAtPreservesValid(s, index);
          RemoveAtIds(s, index);
      }
      ReplayNeverReusesIds(s', evs[1..], t, x);
    }
  }

  /** Driven through the user interface, the store never holds a reminder with an empty title. */
  lemma {:induction false} GuardedReplayKeepsTitles(s: Store, evs: seq<Event>, t: Store)
    requires AllTitled(s.reminders) && Guarded(s, evs) && Replay(s, evs) == Some(t)
    ensures AllTitled(t.reminders)
    decreases |evs|
  {
    if evs != [] {
      var s' := Step(s, evs[0]).value;
      GuardedReplayKeepsTitles(s', evs[1..], t);
    }
  }

  /**
   * The end-to-end example: add "Buy milk", add "Call mom", delete the first
   * row; only "Call mom" remains, with its date.
   */
  lemma ReplayBuyMilkThenCallMom(start: Time, milkDate: Time, momDate: Time, t1: Time, t2: Time)
    ensures Replay(Initial(start),
                   [EditDraft("Buy milk", milkDate), AddReminder(t1),
                    EditDraft("Call mom", momDate), AddReminder(t2), Delete(0)])
            == Some(Store([Reminder(1, "Call mom", momDate)], "", t2, 2))
  {
    var evs := [EditDraft("Buy milk", milkDate), AddReminder(t1),
                EditDraft("Call mom", momDate), AddReminder(t2), Delete(0)];
    var s1 := Store([], "Buy milk", milkDate, 0);
    var s2 := Store([Reminder(0, "Buy milk", milkDate)], "", t1, 1);
    var s3 := s2.(draftTitle := "Call mom", draftDate := momDate);
    var s4 := Store([Reminder(0, "Buy milk", milkDate), Reminder(1, "Call mom", momDate)], "", t2, 2);
    var s5 := Store([Reminder(1, "Call mom", momDate)], "", t2, 2);
    assert evs[1..][1..][1..][1..][1..] == [];
    assert Replay(s5, []) == Some(s5);
    assert Step(s1, AddReminder(t1)) == Some(s2) by {
      assert [] + [Reminder(0, "Buy milk", milkDate)] == s2.reminders;
    }
    assert Step(s4, Delete(0)) == Some(s5) by {
      assert s4.reminders[..0] + s4.reminders[1..] == s5.reminders;
    }
    assert Replay(s4, evs[1..][1..][1..][1..]) == Some(s5);
    assert Replay(s3, evs[1..][1..][1..]) == Some(s5);
    assert Replay(s2, evs[1..][1..]) == Some(s5);
    assert Replay(s1, evs[1..]) == Some(s5);
  }
}
