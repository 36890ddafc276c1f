/** The to-do record: its fields and defaults, its string form, the overdue
    rule and the default listing order (newest creation time first). */
module TodoModels {
  import opened Common

  /** A calendar date, as a day number. */
  type Date = int
  /** An instant, as a tick count of a clock supplied by the caller. */
  type DateTime = int

  /** `max_length` of the title column. */
  const TitleMaxLength: nat := 200

  datatype Todo = Todo(
    id: nat,
    title: string,
    description: Option<string>,
    dueDate: Option<Date>,
    isResolved: bool,
    createdAt: DateTime,
    updatedAt: DateTime)

  /** `Todo.objects.create(...)`: a new row under `id` at time `now`, with
      the column defaults for every keyword left out. */
  function Create(id: nat, now: DateTime, title: string,
                  description: Option<string> := None,
                  dueDate: Option<Date> := None,
                  isResolved: bool := false): (t: Todo)
    ensures t.id == id && t.title == title
    ensures t.description == description && t.dueDate == dueDate && t.isResolved == isResolved
    ensures t.createdAt == now && t.updatedAt == now
  {
    Todo(id, title, description, dueDate, isResolved, now, now)
  }

  /** A new to-do created with only a title is pending and has neither a
      description nor a due date. */
  lemma CreateDefaults(id: nat, now: DateTime, title: string)
    ensures var t := Create(id, now, title);
      !t.isResolved && t.description == None && t.dueDate == None
  {
  }

  /** `save()`: `updated_at` is set to the current time whether or not any
      other value changed. */
  function Save(t: Todo, now: DateTime): Todo
  {
    t.(updatedAt := now)
  }

  /** Saving stamps `updated_at` with the current time and touches no other
      column, `created_at` included; at a later instant `updated_at` moves
      past its old value even when nothing else changed. */
  lemma SaveAdvancesUpdatedAt(t: Todo, now: DateTime)
    ensures var s := Save(t, now);
      && s.id == t.id && s.title == t.title && s.description == t.description
      && s.dueDate == t.dueDate && s.isResolved == t.isResolved
      && s.createdAt == t.createdAt && s.updatedAt == now
    ensures now > t.updatedAt ==> Save(t, now).updatedAt > t.updatedAt
  {
  }

  /** `__str__`: the title. */
  function Str(t: Todo): string
  {
    t.title
  }

  /** `is_overdue()`, with `today` standing for the current date. */
  predicate IsOverdue(t: Todo, today: Date)
  {
    if t.isResolved || t.dueDate.None? then false else t.dueDate.value < today
  }

  /** A resolved to-do is never overdue, whatever its due date. */
  lemma ResolvedNeverOverdue(t: Todo, today: Date)
    requires t.isResolved
    ensures !IsOverdue(t, today)
  {
  }

  /** A to-do without a due date is never overdue. */
  lemma NoDueDateNeverOverdue(t: Todo, today: Date)
    requires t.dueDate.None?
    ensures !IsOverdue(t, today)
  {
  }

  /** Overdue means: pending, with a due date strictly before today. A to-do
      due today or tomorrow is not overdue. */
  lemma OverdueIff(t: Todo, today: Date)
    ensures IsOverdue(t, today) <==> !t.isResolved && t.dueDate.Some? && t.dueDate.value < today
    ensures t.dueDate == Some(today) ==> !IsOverdue(t, today)
    ensures t.dueDate == Some(today + 1) ==> !IsOverdue(t, today)
  {
  }

  // ---------------------------------------------------------------------
  // Default ordering: `ordering = ['-created_at']`
  // ---------------------------------------------------------------------

  /** Newest creation time first. */
  predicate NewestFirst(s: seq<Todo>)
  {
    forall i, j :: 0 <= i < j < |s| ==> s[i].createdAt >= s[j].createdAt
  }

  /** Putting a row in front of a newest-first sequence keeps it newest
      first when the row is no older than any of them. */
  lemma NewestFirstCons(h: Todo, tail: seq<Todo>)
    requires NewestFirst(tail)
    requires forall k :: 0 <= k < |tail| ==> tail[k].createdAt <= h.createdAt
    ensures NewestFirst([h] + tail)
  {
    var r := [h] + tail;
    forall i, j | 0 <= i < j < |r|
      ensures r[i].createdAt >= r[j].createdAt
    {
      assert r[j] == tail[j - 1];
      if i > 0 { assert r[i] == tail[i - 1]; }
    }
  }
  /** The tail of a newest-first sequence is newest first and no newer
      than its head. */
  lemma NewestFirstTail(s: seq<Todo>)
    requires NewestFirst(s) && |s| > 0
    ensures NewestFirst(s[1..])
    ensures forall k :: 0 <= k < |s[1..]| ==> s[1..][k].createdAt <= s[0].createdAt
  {
    forall i, j | 0 <= i < j < |s[1..]| ensures s[1..][i].createdAt >= s[1..][j].createdAt {
      assert s[1..][i] == s[i+1];
      assert s[1..][j] == s[j+1];
    }
  }
  /** A row that was placed into the tail of a newest-first sequence can
      follow the sequence's head when it was created no later than it. */
  lemma InsertBehindHead(t: Todo, s: seq<Todo>, tail: seq<Todo>)
    requires NewestFirst(s) && |s| > 0
    requires t.createdAt < s[0].createdAt
    requires NewestFirst(tail) && multiset(tail) == multiset(s[1..]) + multiset{t}
    ensures NewestFirst([s[0]] + tail)
    ensures multiset([s[0]] + tail) == multiset(s) + multiset{t}
  {
    NewestFirstTail(s);
    forall k | 0 <= k < |tail|
      ensures tail[k].createdAt <= s[0].createdAt
    {
      assert tail[k] in multiset(tail);
      if tail[k] != t {
        assert tail[k] in multiset(s[1..]);
        var j :| 0 <= j < |s[1..]| && s[1..][j] == tail[k];
      }
    }
    NewestFirstCons(s[0], tail);
    assert s == [s[0]] + s[1..];
    assert multiset([s[0]] + tail) == multiset{s[0]} + multiset(tail);
    assert multiset(s) == multiset{s[0]} + multiset(s[1..]);
  }

  /** `t` placed into a newest-first sequence, ahead of the rows created no
      later than it. */
  function Insert(t: Todo, s: seq<Todo>): (r: seq<Todo>)
    requires NewestFirst(s)
    ensures NewestFirst(r)
    ensures multiset(r) == multiset(s) + multiset{t}
    ensures |r| == |s| + 1
  {
    if s == [] then [t]
    else if t.createdAt >= s[0].createdAt then
      NewestFirstCons(t, s);
      assert multiset([t] + s) == multiset{t} + multiset(s);
      [t] + s
    else
      NewestFirstTail(s);
      var tail := Insert(t, s[1..]);
      InsertBehindHead(t, s, tail);
      [s[0]] + tail
  }

  /** The rows of a query in the default order. */
  function OrderedNewestFirst(s: seq<Todo>): (r: seq<Todo>)
    ensures NewestFirst(r)
    ensures multiset(r) == multiset(s)
    ensures |r| == |s|
  {
    if s == [] then [] else
      assert s == [s[0]] + s[1..];
      Insert(s[0], OrderedNewestFirst(s[1..]))
  }
}
